/**
  The Subscribe API service over its stores, as it runs: every method loads, changes and
  stores objects step by step, and is proved to do what SubscribeModel says it does.
 */
module SubscribeService {
  import opened Common
  import opened SubscribeDomain
  import opened SubscribeModel
  import opened SubscribeProofs
  import opened SubscribeStores
  import Merchant = MerchantModel
  import MerchantProofs
  import MerchantService
  import Paging
  import SubscribeBooks
  import SubscribeWalk

  /** A payment the stand has begun: the receipt as it was begun, and the card. */
  function Begun(w: World, id: string, token: string, hold: bool, now: int): Result<(ReceiptRow, CardRow)> {
    match w.LoadReceipt(id)
    case Err(e) => Err(e)
    case Ok(receipt) =>
      match w.LoadCard(token)
      case Err(e) => Err(e)
      case Ok(card) =>
        if card.Usable(receipt.amount).Err? then Err(card.Usable(receipt.amount).error)
        else
          match receipt.AfterBeginPay(card.id, DetectSystem(card.number), hold || receipt.hold, now)
          case Err(e) => Err(e)
          case Ok(begun) => Ok((begun, card))
  }

  /** The receipt as a payment the merchant agreed to leaves it. */
  function Recorded(receipt: ReceiptRow, st: Settings, txn: string, now: int): ReceiptRow {
    receipt.(merchantTxn := txn, holdExpire := if receipt.hold then now + st.holdWindowMillis else receipt.holdExpire)
  }

  /** A payment once begun, given what the merchant answered and what its books became. */
  function Carried(w: World, st: Settings, receipt: ReceiptRow, card: CardRow, txn: string, now: int,
                   books: Merchant.Books, answer: Result<()>): (World, Result<ReceiptRow>)
  {
    if answer.Err? then (w.(books := books), Err(answer.error))
    else
      var row := Recorded(receipt, st, txn, now);
      (w.(books := books, cards := w.cards[card.id := card.Moved(-row.amount)],
          receipts := w.receipts[row.id := row],
          pending := if w.attached then w.pending + multiset{row.id} else w.pending),
       Ok(row))
  }

  /** Paying is beginning, then carrying through what was begun. */
  lemma PaysOnceBegun(w: World, st: Settings, id: string, token: string, hold: bool, txn: string, now: int,
                      books: Merchant.Books, answer: Result<()>)
    requires Shelved(w) && Carded(w)
    ensures PayAnswered(w, st, id, token, hold, txn, now, books, answer) ==
      match Begun(w, id, token, hold, now)
      case Err(e) => (w, Err(e))
      case Ok((receipt, card)) => Carried(w, st, receipt, card, txn, now, books, answer)
    ensures Begun(w, id, token, hold, now).Ok? ==>
      var receipt := Begun(w, id, token, hold, now).value.0;
      id in w.receipts && receipt.amount == w.receipts[id].amount && receipt.account == w.receipts[id].account
  {
    if Begun(w, id, token, hold, now).Ok? {
      Loaded(w, token, id);
    }
  }

  class Service {
    const cards: Cards
    const receipts: Receipts
    const scheduler: Scheduler
    const merchant: MerchantService.Service
    /** The register's own books; a stand wired without them still pays out. */
    const ledger: CashboxLedger?
    const settings: Settings
    ghost var completed: set<string>

    constructor (cards: Cards, receipts: Receipts, scheduler: Scheduler, merchant: MerchantService.Service,
                 ledger: CashboxLedger?, settings: Settings)
      ensures this.cards == cards && this.receipts == receipts && this.scheduler == scheduler
      ensures this.merchant == merchant && this.ledger == ledger && this.settings == settings && completed == {}
    {
      this.cards, this.receipts, this.scheduler := cards, receipts, scheduler;
      this.merchant, this.ledger, this.settings := merchant, ledger, settings;
      completed := {};
    }

    /** The service's state as one value. */
    ghost function State(): World
      reads this, cards, receipts, scheduler, merchant.transactions, merchant.events, merchant.accounts, merchant.orders
    {
      World(cards.byID, cards.tokens, cards.next, receipts.byID, receipts.order,
            scheduler.attached, scheduler.pending, completed, merchant.Tables())
    }

    /** The settings say what is wired, and the ledger writes the merchant's own tables. */
    predicate Wired() {
      && merchant.Wired() && settings.merchant == merchant.settings
      && (settings.ledger <==> ledger != null)
      && (ledger != null ==>
           && ledger.transactions == merchant.transactions && ledger.accounts == merchant.accounts
           && ledger.kind == settings.merchant.registerKind)
    }

    /** Gives the scheduler its runner: until then the steps it is asked for are dropped. */
    method Attach()
      modifies scheduler`attached
      ensures State() == old(State()).(attached := true)
    {
      scheduler.SetAdvance();
    }

    // ---------- cards ----------

    method CardsCreate(p: CardParams, token: string, now: int) returns (r: Result<CardRow>)
      requires Carded(State())
      modifies cards
      ensures (State(), r) == SubscribeModel.CardsCreate(old(State()), settings, p, token, now)
    {
      if p.number == "" || p.expire == "" {
        return Err(InvalidRequest);
      }
      var held := cards.ByNumber(p.number);
      if held != null {
        assert held.id == SubscribeModel.ByNumber(cards.byID, p.number).value;
        r := HandBack(held, p, token, now);
        return;
      }
      var card := new Card.FromRow(NewCard(0, p, token, settings.cardBalance, now));
      cards.Create(card);
      return Ok(card.Row());
    }

    /** Answers with a card already held, under the first token it was given. */
    method HandBack(held: Card, p: CardParams, token: string, now: int) returns (r: Result<CardRow>)
      requires held.id in cards.byID && cards.byID[held.id] == held.Row()
      modifies cards`byID, cards`tokens, held`token, held`registeredAt, held`recurrent, held`account, held`customer
      ensures var named := if old(held.token) == "" then old(held.Row()).(token := token) else old(held.Row());
        var card := Reregistered(named, p, now);
        && r == Ok(card)
        && cards.byID == old(cards.byID)[held.id := card]
        && cards.tokens == old(cards.tokens)[named.token := held.id]
    {
      var kept := cards.TokenFor(held.id, token);
      if kept.Err? {
        return Err(NotFound);
      }
      held.token := kept.value;
      Reregister(held, p, now);
      return Ok(held.Row());
    }

    /** Brings a held card up to date with what this registration said about it. */
    method Reregister(card: Card, p: CardParams, now: int)
      modifies card`registeredAt, card`recurrent, card`account, card`customer, cards`byID
      ensures card.Row() == Reregistered(old(card.Row()), p, now)
      ensures cards.byID == if card.id in old(cards.byID) then old(cards.byID)[card.id := card.Row()] else old(cards.byID)
    {
      card.Register(now);
      Refresh(card, p);
      var _ := cards.Update(card);
    }

    method Refresh(card: Card, p: CardParams)
      modifies card`recurrent, card`account, card`customer
      ensures card.recurrent == (old(card.recurrent) || p.save)
      ensures card.account == if p.account == map[] then old(card.account) else p.account
      ensures card.customer == if p.customer == "" then old(card.customer) else p.customer
    {
      if p.save && !card.recurrent {
        card.recurrent := true;
      }
      if p.account != map[] {
        card.account := p.account;
      }
      if p.customer != "" {
        card.customer := p.customer;
      }
    }

    method CardsGetVerifyCode(token: string, now: int) returns (r: Result<int>)
      requires Carded(State())
      modifies cards`byID
      ensures (State(), r) == SubscribeModel.CardsGetVerifyCode(old(State()), settings, token, now)
    {
      var card, refusal := LoadCard(token);
      if card == null {
        return Err(refusal);
      }
      var operable := card.Operable();
      if operable.Err? {
        return Err(operable.error);
      }
      if !card.smsEnabled {
        return Err(CannotPerform);
      }
      var wait := settings.verifyWaitMillis;
      if wait <= 0 {
        wait := DEFAULT_VERIFY_WAIT_MILLIS;
      }
      card.SendVerifyCode(card.Row().ExpectedVerifyCode(settings.verifyCode), now, wait);
      var _ := cards.Update(card);
      return Ok(wait);
    }

    method CardsVerify(token: string, code: string, now: int) returns (r: Result<CardRow>)
      requires Carded(State())
      modifies cards`byID
      ensures (State(), r) == SubscribeModel.CardsVerify(old(State()), token, code, now)
    {
      var card, refusal := LoadCard(token);
      if card == null {
        return Err(refusal);
      }
      var verified := card.VerifyWith(code, now);
      if verified.Err? {
        return Err(verified.error);
      }
      var _ := cards.Update(card);
      return Ok(card.Row());
    }

    method CardsRemove(token: string) returns (r: Result<()>)
      requires Carded(State())
      modifies cards`byID
      ensures (State(), r) == SubscribeModel.CardsRemove(old(State()), token)
    {
      var card, refusal := LoadCard(token);
      if card == null {
        return Err(refusal);
      }
      card.removed := true;
      var _ := cards.Update(card);
      return Ok(());
    }

    // ---------- receipts ----------

    method ReceiptsCreate(amount: int, account: map<string, string>, hold: bool, id: string, now: int)
      returns (r: Result<ReceiptRow>)
      requires Wired()
      modifies receipts, merchant.transactions, merchant.events, merchant.accounts, merchant.orders
      ensures (State(), r) == SubscribeModel.ReceiptsCreate(old(State()), settings, amount, account, hold, id, now)
    {
      hide Merchant.CheckPerform;
      if amount <= 0 {
        return Err(InvalidAmount);
      }
      var allowed := merchant.CheckPerformTransaction(account, amount);
      if allowed.Err? {
        return Err(allowed.error);
      }
      var receipt := new Receipt.FromRow(NewReceipt(id, amount, account, now));
      receipt.hold := hold;
      StoreReceipt(receipt);
      return Ok(receipt.Row());
    }

    method StoreReceipt(receipt: Receipt)
      modifies receipts
      ensures State() == old(State()).AddReceipt(receipt.Row())
    {
      receipts.Create(receipt);
    }

    /** Charges a card, driving the merchant through check, create and perform first. */
    method ReceiptsPay(id: string, token: string, hold: bool, draw: PayDraw, now: int) returns (r: Result<ReceiptRow>)
      requires Wired() && Shelved(State()) && Carded(State()) && MerchantProofs.Shaped(merchant.Tables())
      modifies cards`byID, receipts`byID, scheduler`pending
      modifies merchant.transactions, merchant.events, merchant.accounts, merchant.orders
      ensures (State(), r) == SubscribeModel.ReceiptsPay(old(State()), settings, id, token, hold, draw, now)
    {
      var receipt, card, refusal := BeginPayment(id, token, hold, now);
      if receipt == null || card == null {
        PaysOnceBegun(State(), settings, id, token, hold, draw.txn, now, merchant.Tables(), Ok(()));
        return Err(refusal);
      }
      ghost var answer;
      r, answer := PayThrough(receipt, card, draw, now);
      PaysOnceBegun(old(State()), settings, id, token, hold, draw.txn, now, merchant.Tables(), answer);
    }

    /** The payment once begun: the merchant is asked, and what it agrees to is recorded. */
    method PayThrough(receipt: Receipt, card: Card, draw: PayDraw, now: int)
      returns (r: Result<ReceiptRow>, ghost answer: Result<()>)
      requires Wired() && MerchantProofs.Shaped(merchant.Tables())
      requires receipt.id in receipts.byID && card.id in cards.byID
      modifies receipt`merchantTxn, receipt`holdExpire, card`balance
      modifies cards`byID, receipts`byID, scheduler`pending
      modifies merchant.transactions, merchant.events, merchant.accounts, merchant.orders
      ensures (merchant.Tables(), answer) ==
        Chain(old(merchant.Tables()), settings.merchant, receipt.amount, receipt.account, now, draw)
      ensures (State(), r) ==
        Carried(old(State()), settings, old(receipt.Row()), old(card.Row()), draw.txn, now, merchant.Tables(), answer)
    {
      hide Chain;
      var given := DriveMerchant(receipt.amount, receipt.account, now, draw);
      ghost var asked := State();
      answer := given;
      r := CarryThrough(receipt, card, draw.txn, given, now);
      assert State().books == asked.books;
    }

    /** A payment once begun, after the merchant's answer: a refusal is passed on, an agreement recorded. */
    method CarryThrough(receipt: Receipt, card: Card, txn: string, answer: Result<()>, now: int)
      returns (r: Result<ReceiptRow>)
      requires receipt.id in receipts.byID && card.id in cards.byID
      modifies receipt`merchantTxn, receipt`holdExpire, card`balance
      modifies cards`byID, receipts`byID, scheduler`pending
      ensures (State(), r) ==
        Carried(old(State()), settings, old(receipt.Row()), old(card.Row()), txn, now, old(State()).books, answer)
    {
      if answer.Err? {
        return Err(answer.error);
      }
      RecordPayment(receipt, card, txn, now);
      return Ok(receipt.Row());
    }

    /** Loads the receipt and the card and begins the payment, before the merchant is asked. */
    method BeginPayment(id: string, token: string, hold: bool, now: int)
      returns (receipt: Receipt?, card: Card?, refusal: Error)
      requires Shelved(State()) && Carded(State())
      ensures match Begun(State(), id, token, hold, now)
        case Ok(pair) =>
          && receipt != null && fresh(receipt) && receipt.Row() == pair.0 && receipt.id in receipts.byID
          && card != null && fresh(card) && card.Row() == pair.1 && card.id in cards.byID
        case Err(e) => receipt == null && refusal == e
    {
      card := null;
      receipt, refusal := LoadReceipt(id);
      if receipt == null {
        return;
      }
      card, refusal := LoadCard(token);
      if card == null {
        return null, null, refusal;
      }
      var usable := card.Usable(receipt.amount);
      if usable.Err? {
        return null, null, usable.error;
      }
      var begun := receipt.BeginPay(card.id, DetectSystem(card.number), hold || receipt.hold, now);
      if begun.Err? {
        return null, null, begun.error;
      }
    }

    /** Charges the card, stores both and queues the first step, once the merchant has performed. */
    method RecordPayment(receipt: Receipt, card: Card, txn: string, now: int)
      requires receipt.id in receipts.byID && card.id in cards.byID
      modifies receipt`merchantTxn, receipt`holdExpire, card`balance
      modifies cards`byID, receipts`byID, scheduler`pending
      ensures receipt.Row() == Recorded(old(receipt.Row()), settings, txn, now)
      ensures State() == old(State()).(
        cards := old(cards.byID)[card.id := old(card.Row()).Moved(-receipt.amount)],
        receipts := old(receipts.byID)[receipt.id := receipt.Row()],
        pending := if scheduler.attached then old(scheduler.pending) + multiset{receipt.id} else old(scheduler.pending))
    {
      StorePayment(receipt, card, txn, now);
    }

    method StorePayment(receipt: Receipt, card: Card, txn: string, now: int)
      requires receipt.id in receipts.byID && card.id in cards.byID
      modifies receipt`merchantTxn, receipt`holdExpire, card`balance
      modifies cards`byID, receipts`byID, scheduler`pending
      ensures receipt.Row() == Recorded(old(receipt.Row()), settings, txn, now)
      ensures cards.byID == old(cards.byID)[card.id := old(card.Row()).Moved(-receipt.amount)]
      ensures receipts.byID == old(receipts.byID)[receipt.id := receipt.Row()]
      ensures scheduler.pending == if scheduler.attached then old(scheduler.pending) + multiset{receipt.id} else old(scheduler.pending)
    {
      receipt.merchantTxn := txn;
      card.Charge(receipt.amount);
      var _ := cards.Update(card);
      if receipt.hold {
        receipt.holdExpire := now + settings.holdWindowMillis;
      }
      var _ := receipts.Update(receipt);
      scheduler.ScheduleAdvance(receipt.id);
    }

    /** The three deliveries of a payment to the merchant, stopping at the first refusal. */
    method DriveMerchant(amount: int, account: map<string, string>, now: int, draw: PayDraw) returns (r: Result<()>)
      requires Wired() && MerchantProofs.Shaped(merchant.Tables())
      modifies merchant.transactions, merchant.events, merchant.accounts, merchant.orders
      ensures (merchant.Tables(), r) == Chain(old(merchant.Tables()), settings.merchant, amount, account, now, draw)
      ensures State() == old(State()).(books := merchant.Tables())
    {
      r := merchant.CheckPerformTransaction(account, amount);
      if r.Err? {
        return;
      }
      SubscribeBooks.CheckQuiet(old(merchant.Tables()), settings.merchant, account, amount);
      var p := Merchant.CreateParams(draw.txn, now, amount, account);
      MerchantProofs.CreateShaped(merchant.Tables(), settings.merchant, p, draw.createNow);
      var created := merchant.CreateTransaction(p, draw.createNow);
      if created.Err? {
        return Err(created.error);
      }
      var performed := merchant.PerformTransaction(draw.txn, draw.performNow);
      if performed.Err? {
        return Err(performed.error);
      }
      return Ok(());
    }

    method ReceiptsConfirmHold(id: string, now: int) returns (r: Result<ReceiptRow>)
      requires Shelved(State())
      modifies receipts`byID
      ensures (State(), r) == SubscribeModel.ReceiptsConfirmHold(old(State()), id, now)
    {
      var receipt, missing := LoadReceipt(id);
      if receipt == null {
        return Err(missing);
      }
      var confirmed := receipt.ConfirmHold(now);
      if confirmed.Err? {
        return Err(confirmed.error);
      }
      var _ := receipts.Update(receipt);
      return Ok(receipt.Row());
    }

    method ReceiptsCancel(id: string, now: int) returns (r: Result<ReceiptRow>)
      requires Shelved(State()) && Carded(State())
      modifies cards`byID, receipts`byID, scheduler`pending
      ensures (State(), r) == SubscribeModel.ReceiptsCancel(old(State()), id, now)
    {
      var receipt, missing := LoadReceipt(id);
      if receipt == null {
        return Err(missing);
      }
      var alreadyCancelling := receipt.state == CancelQueued || receipt.state == Cancelled;
      var cancelled := receipt.Cancel(now);
      if cancelled.Err? {
        return Err(cancelled.error);
      }
      if !alreadyCancelling {
        Refund(receipt);
        var _ := receipts.Update(receipt);
        if receipt.state == CancelQueued {
          scheduler.ScheduleAdvance(receipt.id);
        }
      }
      return Ok(receipt.Row());
    }

    /** Returns money to the card of a receipt that reached one. */
    method Refund(receipt: Receipt)
      requires Carded(State())
      modifies cards`byID
      ensures State() == Refunded(old(State()), receipt.Row())
    {
      if receipt.cardID == None || receipt.payTime == 0 {
        return;
      }
      var card := cards.ByID(receipt.cardID.value);
      if card == null {
        return;
      }
      card.Credit(receipt.amount);
      var _ := cards.Update(card);
    }

    /** The documented ceiling on receipts.get_all. */
    method ReceiptsGetAll(from: int, to: int, count: int, offset: nat) returns (r: Result<seq<ReceiptRow>>)
      requires Shelved(State())
      ensures r == if count > 50 then Err(InvalidRequest)
                   else Ok(Paging.Window(Newest(receipts.byID, receipts.order, |receipts.order|, from, to), offset,
                                         if count <= 0 then 50 else count))
    {
      if count > 50 {
        return Err(InvalidRequest);
      }
      var found := receipts.List(from, to, if count <= 0 then 50 else count, offset);
      return Ok(found);
    }

    /** One background step of the walk; it reschedules itself until the receipt settles. */
    method AdvanceReceipt(id: string, now: int) returns (r: Result<()>)
      requires Shelved(State())
      modifies receipts`byID, scheduler`pending
      ensures (State(), r) == SubscribeModel.AdvanceReceipt(old(State()), id, now)
    {
      var receipt, missing := LoadReceipt(id);
      if receipt == null {
        return Err(missing);
      }
      var moved := receipt.Advance(now);
      if !moved {
        return Ok(());
      }
      var _ := receipts.Update(receipt);
      if receipt.state.Terminal() || receipt.state == Held {
        return Ok(());
      }
      scheduler.ScheduleAdvance(receipt.id);
      return Ok(());
    }

    /**
      Runs queued steps until none is left, in whatever order they come up and each at the
      time the clock then shows: no more of them than there was work, and every receipt that
      was started comes to rest.
     */
    method Wait(clock: nat -> int, since: int) returns (steps: nat)
      requires Sound(State(), since) && since <= clock(0) && forall n: nat :: clock(n) <= clock(n + 1)
      modifies receipts`byID, scheduler`pending
      ensures scheduler.pending == multiset{} && SubscribeWalk.Settled(State())
      ensures steps <= SubscribeWalk.Work(old(State()))
      ensures Sound(State(), if steps == 0 then since else clock(steps - 1))
      ensures cards.byID == old(cards.byID) && merchant.Tables() == old(merchant.Tables())
    {
      hide Sound, RunStep, SubscribeWalk.Work, SubscribeWalk.Settled;
      steps := 0;
      SubscribeWalk.WorkNonNegative(State());
      while scheduler.pending != multiset{}
        invariant Sound(State(), if steps == 0 then since else clock(steps - 1))
        invariant 0 <= SubscribeWalk.Work(State()) <= SubscribeWalk.Work(old(State())) - steps
        decreases SubscribeWalk.Work(State())
      {
        RunNext(if steps == 0 then since else clock(steps - 1), clock(steps));
        steps := steps + 1;
      }
      SubscribeWalk.RestingSettled(State(), if steps == 0 then since else clock(steps - 1));
    }

    /** One of the queued steps, whichever comes up. */
    method RunNext(since: int, now: int)
      requires Sound(State(), since) && since <= now && scheduler.pending != multiset{}
      modifies receipts`byID, scheduler`pending
      ensures Sound(State(), now) && 0 <= SubscribeWalk.Work(State()) < SubscribeWalk.Work(old(State()))
    {
      var id :| id in scheduler.pending;
      SubscribeWalk.PickWorks(State(), id, since, now);
      hide RunStep, SubscribeWalk.Work;
      RunQueued(id, now);
    }

    /** The queue gives up one of its entries, and the step it asks for is run. */
    method RunQueued(id: string, now: int)
      requires Shelved(State()) && id in scheduler.pending
      modifies receipts`byID, scheduler`pending
      ensures State() == RunStep(old(State()), id, now)
    {
      scheduler.pending := scheduler.pending - multiset{id};
      var _ := AdvanceReceipt(id, now);
    }

    // ---------- payouts ----------

    method TransactionsCreate(amount: int, token: string, account: map<string, string>, id: string, txn: string, now: int)
      returns (r: Result<ReceiptRow>)
      requires Wired() && Carded(State())
      modifies receipts, merchant.transactions
      ensures (State(), r) == SubscribeModel.TransactionsCreate(old(State()), settings, amount, token, account, id, txn, now)
    {
      hide OpenPayout;
      if amount <= 0 {
        return Err(InvalidAmount);
      }
      var card, refusal := LoadCard(token);
      if card == null {
        return Err(refusal);
      }
      var operable := card.Operable();
      if operable.Err? {
        return Err(operable.error);
      }
      var receipt := PayoutReceipt(card, amount, account, id, txn, now);
      StoreReceipt(receipt);
      var written := OpenOnRegister(PayoutOf(receipt.Row()));
      if written.Err? {
        return Err(written.error);
      }
      return Ok(receipt.Row());
    }

    /** An unpaid payout to a card, named the way a payment is. */
    method PayoutReceipt(card: Card, amount: int, account: map<string, string>, id: string, txn: string, now: int)
      returns (receipt: Receipt)
      ensures fresh(receipt) && receipt.Row() == NewPayout(card.Row(), amount, account, id, txn, now)
    {
      receipt := new Receipt.FromRow(NewReceipt(id, amount, account, now).(payout := true));
      receipt.cardID := Some(card.id);
      receipt.cardSystem := Some(DetectSystem(card.number));
      receipt.merchantTxn := txn;
    }

    /** Tells the register's books of a payout as it is opened, on a stand that has any. */
    method OpenOnRegister(payout: Payout) returns (r: Result<()>)
      requires Wired()
      modifies merchant.transactions
      ensures var books := old(State()).books;
        match if settings.ledger then OpenPayout(books, payout) else Ok(books)
        case Ok(written) => r == Ok(()) && State() == old(State()).(books := written)
        case Err(e) => r == Err(e) && State() == old(State())
    {
      if ledger == null {
        return Ok(());
      }
      r := ledger.OpenPayout(payout, merchant.Tables());
      if r.Ok? {
        return Ok(());
      }
    }

    /** Takes a settled payout out of the register, on a stand that keeps its books. */
    method SettleOnRegister(payout: Payout) returns (r: Result<()>)
      requires Wired()
      modifies merchant.transactions, merchant.accounts`rows, merchant.accounts`moves
      ensures var books := old(State()).books;
        match if settings.ledger then SettlePayout(books, settings.merchant.registerKind, payout) else Ok(books)
        case Ok(written) => r == Ok(()) && State() == old(State()).(books := written)
        case Err(e) => r == Err(e) && State() == old(State())
    {
      if ledger == null {
        return Ok(());
      }
      r := ledger.SettlePayout(payout, merchant.Tables());
      if r.Ok? {
        return Ok(());
      }
    }

    method TransactionsComplete(id: string, token: string, amount: int, now: int) returns (r: Result<ReceiptRow>)
      requires Wired() && Shelved(State()) && Carded(State())
      modifies cards`byID, receipts`byID, this`completed
      modifies merchant.transactions, merchant.accounts`rows, merchant.accounts`moves
      ensures (State(), r) == SubscribeModel.TransactionsComplete(old(State()), settings, id, token, amount, now)
    {
      hide SettlePayout, SubscribeModel.PayoutCard, Shelved, Carded;
      var receipt, missing := LoadReceipt(id);
      if receipt == null {
        return Err(missing);
      }
      if !receipt.payout {
        return Err(CannotPerform);
      }
      var card, refusal := PayoutCard(receipt, token);
      if card == null {
        return Err(refusal);
      }
      if receipt.state == Paid {
        return Ok(receipt.Row());
      }
      var settled := receipt.Complete(amount, now);
      if settled.Err? {
        return Err(settled.error);
      }
      var paid := SettleOnRegister(PayoutOf(receipt.Row()));
      if paid.Err? {
        return Err(paid.error);
      }
      RecordPayout(receipt, card);
      return Ok(receipt.Row());
    }

    /** Credits the card and stores both, once the register has paid. */
    method RecordPayout(receipt: Receipt, card: Card)
      requires receipt.id in receipts.byID && card.id in cards.byID
      modifies card`balance, cards`byID, receipts`byID, this`completed
      ensures State() == old(State()).(
        cards := old(cards.byID)[card.id := old(card.Row()).Moved(receipt.amount)],
        receipts := old(receipts.byID)[receipt.id := old(receipt.Row())],
        completed := old(completed) + {receipt.id})
    {
      card.Credit(receipt.amount);
      var _ := cards.Update(card);
      var _ := receipts.Update(receipt);
      completed := completed + {receipt.id};
    }

    /** The card a payout settles to, refusing a token that names another. */
    method PayoutCard(receipt: Receipt, token: string) returns (card: Card?, refusal: Error)
      requires Carded(State())
      ensures match SubscribeModel.PayoutCard(State(), receipt.Row(), token)
        case Ok(row) => card != null && fresh(card) && card.Row() == row && card.id in cards.byID
        case Err(e) => card == null && refusal == e
    {
      card, refusal := null, CannotPerform;
      if receipt.cardID == None {
        return;
      }
      if token != "" {
        card, refusal := LoadCard(token);
        if card != null && card.id != receipt.cardID.value {
          card, refusal := null, CannotPerform;
        }
        return;
      }
      card := cards.ByID(receipt.cardID.value);
    }

    // ---------- loads ----------

    method LoadCard(token: string) returns (card: Card?, refusal: Error)
      requires Carded(State())
      ensures card != null ==> card.id in cards.byID && cards.byID[card.id] == card.Row()
      ensures match State().LoadCard(token)
        case Ok(row) => card != null && fresh(card) && card.Row() == row
        case Err(e) => card == null && refusal == e
    {
      card, refusal := null, InvalidRequest;
      if token == "" {
        return;
      }
      card := cards.ByToken(token);
      refusal := CannotPerform;
      if card != null {
        assert cards.byID[cards.tokens[token]].id == cards.tokens[token];
      }
    }

    method LoadReceipt(id: string) returns (receipt: Receipt?, refusal: Error)
      requires Shelved(State())
      ensures receipt != null ==> receipt.id == id && id in receipts.byID
      ensures match State().LoadReceipt(id)
        case Ok(row) => receipt != null && fresh(receipt) && receipt.Row() == row
        case Err(e) => receipt == null && refusal == e
    {
      receipt, refusal := null, InvalidRequest;
      if id == "" {
        return;
      }
      receipt := receipts.ByReceiptID(id);
      refusal := TransactionNotFound;
    }
  }
}
