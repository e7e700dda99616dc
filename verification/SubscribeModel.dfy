/**
  The Subscribe API as a state machine: cards, receipts, the pending steps of the receipt
  walk, and the register's books it shares with the Merchant API
  (internal/context/payment/subscribe, internal/context/payment/billing/infrastructure/ledger.go).
 */
module SubscribeModel {
  import opened Common
  import Billing
  import Merchant = MerchantModel

  // ---------- cards ----------

  datatype CardSystem = Uzcard | Humo

  function DetectSystem(number: string): CardSystem { if "9860" <= number then Humo else Uzcard }

  /** What a card is rigged to do; an outcome never set behaves as Success. */
  datatype Outcome = Success | InsufficientFunds | Blocked | Expired | VerifyFailed | SystemError {
    function Err(): Result<()> {
      match this
      case Success => Ok(())
      case SystemError => Result.Err(Transport)
      case _ => Result.Err(CannotPerform)
    }

    predicate BlocksEverything() { Blocked? || Expired? || SystemError? }
  }

  datatype CardSource = Api | Console

  const DEFAULT_VERIFY_CODE := "666666"
  const DEFAULT_VERIFY_WAIT_MILLIS: int := 60000

  /** MMYY as a caller sends it becomes MM/YY; anything else is kept. */
  function FormatExpire(expire: string): string {
    if |expire| != 4 then expire else expire[..2] + "/" + expire[2..]
  }

  function WithoutSlashes(s: string): string {
    if s == "" then "" else (if s[0] == '/' then "" else [s[0]]) + WithoutSlashes(s[1..])
  }

  /** The code an expiry spells: its digits with the year repeated, or nothing. */
  function ExpiryCode(expire: string): string {
    var digits := WithoutSlashes(expire);
    if |digits| != 4 then "" else digits + digits[2..]
  }

  datatype CardRow = CardRow(
    id: int, token: string, number: string, expire: string, recurrent: bool, verify: bool, verifyCode: string,
    balance: int, removed: bool, outcome: Outcome, source: CardSource, smsEnabled: bool, frozen: bool,
    account: map<string, string>, customer: string, verifyCodeSentAt: int, verifyWaitMillis: int, registeredAt: int)
  {
    function Operable(): Result<()> {
      if removed then Err(CannotPerform) else if outcome.BlocksEverything() then outcome.Err() else Ok(())
    }

    /** A card can pay when it may be touched, is not rigged to refuse, is verified, and holds the amount. */
    function Usable(amount: int): Result<()> {
      if Operable().Err? then Operable()
      else if outcome.Err().Err? then outcome.Err()
      else if !verify || balance < amount then Err(CannotPerform)
      else Ok(())
    }

    function ExpectedVerifyCode(shared: string): string {
      if source.Console? && shared != "" then shared
      else if ExpiryCode(expire) != "" then ExpiryCode(expire)
      else shared
    }

    predicate VerifyExpired(now: int) { 0 < verifyWaitMillis && now - verifyCodeSentAt > verifyWaitMillis }

    function AfterVerify(code: string, now: int): Result<CardRow> {
      if Operable().Err? then Err(Operable().error)
      else if outcome.VerifyFailed? then Err(CannotPerform)
      else if verifyCode == "" || (code != verifyCode && code != DEFAULT_VERIFY_CODE) then Err(CannotPerform)
      else if VerifyExpired(now) then Err(CannotPerform)
      else Ok(this.(verify := true, verifyCode := ""))
    }

    /** A frozen card's figure never moves. */
    function Moved(delta: int): CardRow { if frozen then this else this.(balance := balance + delta) }
  }

  // ---------- receipts ----------

  datatype ReceiptState =
    | Created | Checking | Withdrawn | Closing | Paid | Held | HoldAccepted
    | Paused | CancelQueued | CloseQueued | Cancelled
  {
    function Code(): int {
      match this
      case Created => 0
      case Checking => 1
      case Withdrawn => 2
      case Closing => 3
      case Paid => 4
      case Held => 5
      case HoldAccepted => 6
      case Paused => 20
      case CancelQueued => 21
      case CloseQueued => 30
      case Cancelled => 50
    }

    predicate Terminal() { Paid? || Cancelled? }

    predicate InProgress() { Checking? || Withdrawn? || Closing? || CancelQueued? || CloseQueued? }

    /** The state that follows while paying. */
    function NextPay(): Option<ReceiptState> {
      match this
      case Created => Some(Checking)
      case Checking => Some(Withdrawn)
      case Withdrawn => Some(Closing)
      case Closing => Some(Paid)
      case _ => None
    }
  }

  datatype ReceiptRow = ReceiptRow(
    id: string, amount: int, state: ReceiptState, payout: bool, hold: bool, holdExpire: int,
    cardSystem: Option<CardSystem>, account: map<string, string>, cardID: Option<int>,
    createTime: int, payTime: int, cancelTime: int, merchantTxn: string)
  {
    function AfterBeginPay(card: int, system: CardSystem, holding: bool, now: int): Result<ReceiptRow> {
      if !state.Created? then Err(CannotPerform)
      else Ok(this.(cardID := Some(card), cardSystem := Some(system), hold := holding, state := Checking, payTime := now))
    }

    /** The state one step along whichever walk the receipt is on, if there is a step left. */
    function NextState(): Option<ReceiptState> {
      if state.CancelQueued? then Some(Cancelled)
      else if hold && state.NextPay() == Some(Paid) then Some(Held)
      else state.NextPay()
    }

    /** One step of the walk; the same receipt when it does not move. */
    function AfterAdvance(now: int): ReceiptRow {
      if NextState().None? then this
      else this.(state := NextState().value, cancelTime := if state.CancelQueued? then now else cancelTime)
    }

    function AfterConfirmHold(now: int): Result<ReceiptRow> {
      if !state.Held? then Err(CannotPerform) else Ok(this.(state := Paid, payTime := now, hold := false))
    }

    function AfterCancel(now: int): Result<ReceiptRow> {
      if state.Cancelled? || state.CancelQueued? then Ok(this)
      else if state.Created? then Ok(this.(state := Cancelled, cancelTime := now))
      else if state.Paid? || state.Held? || state.InProgress() then Ok(this.(state := CancelQueued, cancelTime := now))
      else Err(CannotPerform)
    }

    function AfterComplete(claimed: int, now: int): Result<ReceiptRow> {
      if !payout || !state.Created? then Err(CannotPerform)
      else if claimed != amount then Err(InvalidAmount)
      else Ok(this.(state := Paid, payTime := now))
    }
  }

  function NewReceipt(id: string, amount: int, account: map<string, string>, now: int): ReceiptRow {
    ReceiptRow(id, amount, Created, false, false, 0, None, account, None, now, 0, 0, "")
  }

  // ---------- the state ----------

  datatype Settings = Settings(
    verifyCode: string, verifyWaitMillis: int, holdWindowMillis: int, cardBalance: int, ledger: bool,
    merchant: Merchant.Settings)

  /**
    completed is an auxiliary set: the receipts settled by transactions.complete.  Nothing
    reads it; the properties use it to tell the two ways a receipt becomes paid apart.
   */
  datatype World = World(
    cards: map<int, CardRow>, tokens: map<string, int>, lastCard: int,
    receipts: map<string, ReceiptRow>, order: seq<string>,
    attached: bool, pending: multiset<string>,
    completed: set<string>,
    books: Merchant.Books)
  {
    function PutCard(c: CardRow): World { this.(cards := cards[c.id := c]) }

    function PutReceipt(r: ReceiptRow): World { this.(receipts := receipts[r.id := r]) }

    function AddReceipt(r: ReceiptRow): World { this.(receipts := receipts[r.id := r], order := order + [r.id]) }

    /** A step asked for before a runner is attached is dropped. */
    function Schedule(id: string): World {
      if attached then this.(pending := pending + multiset{id}) else this
    }

    function LoadCard(token: string): Result<CardRow> {
      if token == "" then Err(InvalidRequest)
      else if token !in tokens || tokens[token] !in cards then Err(CannotPerform)
      else Ok(cards[tokens[token]])
    }

    function LoadReceipt(id: string): Result<ReceiptRow> {
      if id == "" then Err(InvalidRequest)
      else if id !in receipts then Err(TransactionNotFound)
      else Ok(receipts[id])
    }
  }

  // ---------- the card methods ----------

  datatype CardParams = CardParams(number: string, expire: string, save: bool, account: map<string, string>, customer: string)

  /** The card held for a number, whoever put it there. */
  ghost function ByNumber(cards: map<int, CardRow>, number: string): (held: Option<int>)
    ensures held.Some? ==> held.value in cards && cards[held.value].number == number
    ensures held.None? ==> forall c :: c in cards ==> cards[c].number != number
  {
    if c :| c in cards && cards[c].number == number then Some(c) else None
  }

  function NewCard(id: int, p: CardParams, token: string, balance: int, now: int): CardRow {
    CardRow(id, token, p.number, FormatExpire(p.expire), p.save, false, "", balance, false, Success, Api, true, false,
            p.account, p.customer, 0, 0, now)
  }

  /** What a second registration may say about a held card. */
  function Reregistered(card: CardRow, p: CardParams, now: int): CardRow {
    card.(registeredAt := now,
          recurrent := card.recurrent || p.save,
          account := if p.account == map[] then card.account else p.account,
          customer := if p.customer == "" then card.customer else p.customer)
  }

  ghost function CardsCreate(w: World, st: Settings, p: CardParams, token: string, now: int): (World, Result<CardRow>) {
    if p.number == "" || p.expire == "" then (w, Err(InvalidRequest))
    else
      match ByNumber(w.cards, p.number)
      case None =>
        var card := NewCard(w.lastCard + 1, p, token, st.cardBalance, now);
        (w.(cards := w.cards[card.id := card],
            tokens := if token == "" then w.tokens else w.tokens[token := card.id],
            lastCard := card.id),
         Ok(card))
      case Some(c) =>
        var named := if w.cards[c].token == "" then w.cards[c].(token := token) else w.cards[c];
        var card := Reregistered(named, p, now);
        (w.(cards := w.cards[c := card], tokens := w.tokens[named.token := c]), Ok(card))
  }

  function CardsGetVerifyCode(w: World, st: Settings, token: string, now: int): (World, Result<int>) {
    match w.LoadCard(token)
    case Err(e) => (w, Err(e))
    case Ok(card) =>
      if card.Operable().Err? then (w, Err(card.Operable().error))
      else if !card.smsEnabled then (w, Err(CannotPerform))
      else
        var wait := if st.verifyWaitMillis <= 0 then DEFAULT_VERIFY_WAIT_MILLIS else st.verifyWaitMillis;
        (w.PutCard(card.(verifyCode := card.ExpectedVerifyCode(st.verifyCode),
                         verifyCodeSentAt := now, verifyWaitMillis := wait)),
         Ok(wait))
  }

  function CardsVerify(w: World, token: string, code: string, now: int): (World, Result<CardRow>) {
    match w.LoadCard(token)
    case Err(e) => (w, Err(e))
    case Ok(card) =>
      match card.AfterVerify(code, now)
      case Err(e) => (w, Err(e))
      case Ok(verified) => (w.PutCard(verified), Ok(verified))
  }

  function CardsRemove(w: World, token: string): (World, Result<()>) {
    match w.LoadCard(token)
    case Err(e) => (w, Err(e))
    case Ok(card) => (w.PutCard(card.(removed := true)), Ok(()))
  }

  // ---------- the receipt methods ----------

  function ReceiptsCreate(w: World, st: Settings, amount: int, account: map<string, string>, hold: bool,
                          id: string, now: int): (World, Result<ReceiptRow>)
  {
    if amount <= 0 then (w, Err(InvalidAmount))
    else
      var (books, allowed) := Merchant.CheckPerform(w.books, st.merchant, account, amount);
      var w1 := w.(books := books);
      if allowed.Err? then (w1, Err(allowed.error))
      else
        var r := NewReceipt(id, amount, account, now).(hold := hold);
        (w1.AddReceipt(r), Ok(r))
  }

  /** The identifiers and clock readings one receipts.pay draws. */
  datatype PayDraw = PayDraw(txn: string, createNow: int, performNow: int)

  /** The merchant's answers to check, create and perform, and what they did to its books. */
  function Chain(b: Merchant.Books, st: Merchant.Settings, amount: int, account: map<string, string>,
                 time: int, draw: PayDraw): (Merchant.Books, Result<()>)
  {
    var (b1, checked) := Merchant.CheckPerform(b, st, account, amount);
    if checked.Err? then (b1, checked)
    else
      var (b2, created) := Merchant.Create(b1, st, Merchant.CreateParams(draw.txn, time, amount, account), draw.createNow);
      if created.Err? then (b2, Err(created.error))
      else
        var (b3, performed) := Merchant.Perform(b2, st, draw.txn, draw.performNow);
        (b3, if performed.Err? then Err(performed.error) else Ok(()))
  }

  /** receipts.pay, given what the merchant answered and what its books became. */
  function PayAnswered(w: World, st: Settings, id: string, token: string, hold: bool, txn: string, now: int,
                       books: Merchant.Books, answer: Result<()>): (World, Result<ReceiptRow>)
  {
    match w.LoadReceipt(id)
    case Err(e) => (w, Err(e))
    case Ok(receipt) =>
      match w.LoadCard(token)
      case Err(e) => (w, Err(e))
      case Ok(card) =>
        if card.Usable(receipt.amount).Err? then (w, Err(card.Usable(receipt.amount).error))
        else
          var holding := hold || receipt.hold;
          match receipt.AfterBeginPay(card.id, DetectSystem(card.number), holding, now)
          case Err(e) => (w, Err(e))
          case Ok(begun) =>
            var w1 := w.(books := books);
            if answer.Err? then (w1, Err(answer.error))
            else
              var paying := begun.(merchantTxn := txn,
                                   holdExpire := if holding then now + st.holdWindowMillis else begun.holdExpire);
              (w1.PutCard(card.Moved(-receipt.amount)).PutReceipt(paying).Schedule(id), Ok(paying))
  }

  /** receipts.pay with the stand's own merchant behind it. */
  function ReceiptsPay(w: World, st: Settings, id: string, token: string, hold: bool, draw: PayDraw, now: int)
    : (World, Result<ReceiptRow>)
  {
    match w.LoadReceipt(id)
    case Err(e) => (w, Err(e))
    case Ok(receipt) =>
      var (books, answer) := Chain(w.books, st.merchant, receipt.amount, receipt.account, now, draw);
      PayAnswered(w, st, id, token, hold, draw.txn, now, books, answer)
  }

  function ReceiptsConfirmHold(w: World, id: string, now: int): (World, Result<ReceiptRow>) {
    match w.LoadReceipt(id)
    case Err(e) => (w, Err(e))
    case Ok(receipt) =>
      match receipt.AfterConfirmHold(now)
      case Err(e) => (w, Err(e))
      case Ok(confirmed) => (w.PutReceipt(confirmed), Ok(confirmed))
  }

  /** What a cancelled receipt gives back: nothing unless it reached a card that is still there. */
  function Refunded(w: World, r: ReceiptRow): World {
    if r.cardID.None? || r.payTime == 0 || r.cardID.value !in w.cards then w
    else w.PutCard(w.cards[r.cardID.value].Moved(r.amount))
  }

  function ReceiptsCancel(w: World, id: string, now: int): (World, Result<ReceiptRow>) {
    match w.LoadReceipt(id)
    case Err(e) => (w, Err(e))
    case Ok(receipt) =>
      match receipt.AfterCancel(now)
      case Err(e) => (w, Err(e))
      case Ok(cancelled) =>
        if receipt.state.CancelQueued? || receipt.state.Cancelled? then (w, Ok(cancelled))
        else
          var w1 := Refunded(w, cancelled).PutReceipt(cancelled);
          (if cancelled.state.CancelQueued? then w1.Schedule(id) else w1, Ok(cancelled))
  }

  /** One background step of the walk. */
  function AdvanceReceipt(w: World, id: string, now: int): (World, Result<()>) {
    match w.LoadReceipt(id)
    case Err(e) => (w, Err(e))
    case Ok(receipt) =>
      var advanced := receipt.AfterAdvance(now);
      if receipt.NextState().None? then (w, Ok(()))
      else
        var w1 := w.PutReceipt(advanced);
        (if advanced.state.Terminal() || advanced.state.Held? then w1 else w1.Schedule(id), Ok(()))
  }

  /** The scheduler runs one of the steps it holds. */
  function RunStep(w: World, id: string, now: int): World
    requires id in w.pending
  {
    AdvanceReceipt(w.(pending := w.pending - multiset{id}), id, now).0
  }

  // ---------- payouts ----------

  datatype Payout = Payout(txn: string, amount: int, account: map<string, string>, createTime: int, payTime: int)

  function PayoutOf(r: ReceiptRow): Payout { Payout(r.merchantTxn, r.amount, r.account, r.createTime, r.payTime) }

  function PayoutTx(b: Merchant.Books, p: Payout): Merchant.Tx
    requires b.accounts != []
  {
    Merchant.Tx(b.nextTx, p.txn, 0, b.accounts[0].id, p.account, p.amount, Merchant.State.Created, None,
                p.createTime, p.createTime, 0, 0)
  }

  /** Writes a payout the register was asked for, before any money moves. */
  function OpenPayout(b: Merchant.Books, p: Payout): Result<Merchant.Books> {
    if b.accounts == [] then Err(NotFound)
    else if b.Stopped() then Err(CannotPerform)
    else if Merchant.TxIndex(b.txs, p.txn) < |b.txs| then Ok(b)
    else Ok(b.(txs := b.txs + [PayoutTx(b, p)], nextTx := b.nextTx + 1))
  }

  /** Takes a payout out of the register and marks its transaction performed, whatever state it was in. */
  function SettlePayout(b: Merchant.Books, kind: Billing.Kind, p: Payout): Result<Merchant.Books> {
    var i := Merchant.TxIndex(b.txs, p.txn);
    var number := if i < |b.txs| then b.txs[i].id else b.nextTx;
    match Merchant.Settle(b, kind, p.amount, Some(number))
    case Err(e) => Err(e)
    case Ok(b1) =>
      if i < |b.txs| then
        Ok(b1.SetTx(i, b.txs[i].(state := Merchant.State.Performed, performTime := p.payTime)))
      else
        Ok(b1.(txs := b.txs + [PayoutTx(b, p).(state := Merchant.State.Performed, performTime := p.payTime)],
               nextTx := b.nextTx + 1))
  }

  function NewPayout(card: CardRow, amount: int, account: map<string, string>, id: string, txn: string, now: int): ReceiptRow {
    NewReceipt(id, amount, account, now)
      .(payout := true, cardID := Some(card.id), cardSystem := Some(DetectSystem(card.number)), merchantTxn := txn)
  }

  /** transactions.create, given the register's answer: a refused payout leaves its receipt behind. */
  function CreateAnswered(w: World, amount: int, token: string, account: map<string, string>,
                          id: string, txn: string, now: int, answer: Result<Merchant.Books>): (World, Result<ReceiptRow>)
  {
    if amount <= 0 then (w, Err(InvalidAmount))
    else
      match w.LoadCard(token)
      case Err(e) => (w, Err(e))
      case Ok(card) =>
        if card.Operable().Err? then (w, Err(card.Operable().error))
        else
          var r := NewPayout(card, amount, account, id, txn, now);
          var w1 := w.AddReceipt(r);
          match answer
          case Err(e) => (w1, Err(e))
          case Ok(books) => (w1.(books := books), Ok(r))
  }

  function TransactionsCreate(w: World, st: Settings, amount: int, token: string, account: map<string, string>,
                              id: string, txn: string, now: int): (World, Result<ReceiptRow>)
  {
    var payout := Payout(txn, amount, account, now, 0);
    CreateAnswered(w, amount, token, account, id, txn, now, if st.ledger then OpenPayout(w.books, payout) else Ok(w.books))
  }

  /** The card a payout settles to, refusing a token that names another. */
  function PayoutCard(w: World, r: ReceiptRow, token: string): Result<CardRow> {
    if r.cardID.None? then Err(CannotPerform)
    else if token != "" then
      match w.LoadCard(token)
      case Err(e) => Err(e)
      case Ok(card) => if card.id == r.cardID.value then Ok(card) else Err(CannotPerform)
    else if r.cardID.value in w.cards then Ok(w.cards[r.cardID.value])
    else Err(CannotPerform)
  }

  /** transactions.complete, given the register's answer to the settlement. */
  function CompleteAnswered(w: World, id: string, token: string, amount: int, now: int, answer: Result<Merchant.Books>)
    : (World, Result<ReceiptRow>)
  {
    match w.LoadReceipt(id)
    case Err(e) => (w, Err(e))
    case Ok(receipt) =>
      if !receipt.payout then (w, Err(CannotPerform))
      else
        match PayoutCard(w, receipt, token)
        case Err(e) => (w, Err(e))
        case Ok(card) =>
          if receipt.state.Paid? then (w, Ok(receipt))
          else
            match receipt.AfterComplete(amount, now)
            case Err(e) => (w, Err(e))
            case Ok(settled) =>
              match answer
              case Err(e) => (w, Err(e))
              case Ok(books) =>
                (w.(books := books, completed := w.completed + {id})
                  .PutCard(card.Moved(receipt.amount)).PutReceipt(settled),
                 Ok(settled))
  }

  /** What the register's books answer to settling a receipt now. */
  function Settlement(w: World, st: Settings, receipt: ReceiptRow, now: int): Result<Merchant.Books> {
    if st.ledger then SettlePayout(w.books, st.merchant.registerKind, PayoutOf(receipt.(payTime := now))) else Ok(w.books)
  }

  function TransactionsComplete(w: World, st: Settings, id: string, token: string, amount: int, now: int)
    : (World, Result<ReceiptRow>)
  {
    match w.LoadReceipt(id)
    case Err(e) => (w, Err(e))
    case Ok(receipt) => CompleteAnswered(w, id, token, amount, now, Settlement(w, st, receipt, now))
  }

  // ---------- runs ----------

  datatype Call =
    | CreateCard(p: CardParams, token: string)
    | GetVerifyCode(token: string)
    | Verify(token: string, code: string)
    | RemoveCard(token: string)
    | CreateReceipt(amount: int, account: map<string, string>, hold: bool, id: string)
    | Pay(id: string, token: string, hold: bool, draw: PayDraw)
    | ConfirmHold(id: string)
    | Cancel(id: string)
    | CreatePayout(amount: int, token: string, account: map<string, string>, id: string, txn: string)
    | CompletePayout(id: string, token: string, amount: int)
    | Tick(id: string)
    | ToMerchant(call: Merchant.Call)

  ghost function Step(w: World, st: Settings, call: Call, now: int): World {
    match call
    case CreateCard(p, token) => CardsCreate(w, st, p, token, now).0
    case GetVerifyCode(token) => CardsGetVerifyCode(w, st, token, now).0
    case Verify(token, code) => CardsVerify(w, token, code, now).0
    case RemoveCard(token) => CardsRemove(w, token).0
    case CreateReceipt(amount, account, hold, id) => ReceiptsCreate(w, st, amount, account, hold, id, now).0
    case Pay(id, token, hold, draw) => ReceiptsPay(w, st, id, token, hold, draw, now).0
    case ConfirmHold(id) => ReceiptsConfirmHold(w, id, now).0
    case Cancel(id) => ReceiptsCancel(w, id, now).0
    case CreatePayout(amount, token, account, id, txn) => TransactionsCreate(w, st, amount, token, account, id, txn, now).0
    case CompletePayout(id, token, amount) => TransactionsComplete(w, st, id, token, amount, now).0
    case Tick(id) => if id in w.pending then RunStep(w, id, now) else w
    case ToMerchant(mcall) => w.(books := Merchant.Step(w.books, st.merchant, mcall, now))
  }

  datatype Delivery = Delivery(call: Call, now: int)

  ghost function Run(w: World, st: Settings, deliveries: seq<Delivery>): World {
    if deliveries == [] then w
    else
      var last := deliveries[|deliveries| - 1];
      Step(Run(w, st, deliveries[..|deliveries| - 1]), st, last.call, last.now)
  }

  // ---------- what a run may deliver ----------

  /** A merchant transaction identifier nothing has used. */
  predicate FreshTxn(w: World, txn: string) {
    && Merchant.TxIndex(w.books.txs, txn) == |w.books.txs|
    && forall id :: id in w.receipts ==> w.receipts[id].merchantTxn != txn
  }

  /** The generated identifiers are new ones. */
  predicate Issued(w: World, call: Call) {
    match call
    case CreateCard(_, token) => token != "" && token !in w.tokens
    case CreateReceipt(_, _, _, id) => id != "" && id !in w.receipts
    case Pay(_, _, _, draw) => FreshTxn(w, draw.txn)
    case CreatePayout(_, _, _, id, txn) => id != "" && id !in w.receipts && FreshTxn(w, txn)
    case _ => true
  }

  /** Every generated identifier is new when drawn, and the clock is positive and never runs back. */
  ghost predicate Proper(w: World, st: Settings, deliveries: seq<Delivery>) {
    deliveries == [] ||
    var n := |deliveries| - 1;
    && Proper(w, st, deliveries[..n])
    && Issued(Run(w, st, deliveries[..n]), deliveries[n].call)
    && Latest(deliveries[..n]) <= deliveries[n].now
  }

  /** The clock after a run, which starts at 1. */
  function Latest(deliveries: seq<Delivery>): int {
    if deliveries == [] then 1 else deliveries[|deliveries| - 1].now
  }
}
