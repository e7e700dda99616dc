/**
  The money of the Subscribe API: what each card holds over every run, what a payment moves
  between a card and the merchant's register, and what a payout takes from it.
 */
module SubscribeMoney {
  import opened Common
  import opened Sums
  import opened SubscribeModel
  import opened SubscribeProofs
  import Merchant = MerchantModel

  // ---------- what a card holds ----------

  /**
    What one receipt has done to the balance of a card.  A payment counts against the card
    while its money is out; a settled payout counts for it once, and a second time after it
    is cancelled, because a refund does not ask whether the receipt was a payout.
   */
  function Share(r: ReceiptRow, completed: bool, c: int): int {
    if r.cardID != Some(c) then 0
    else if completed then (if r.state.Paid? then r.amount else 2 * r.amount)
    else if Charged(r.state) then -r.amount
    else 0
  }

  function Shares(w: World, c: int): seq<int> {
    seq(|w.order|, k requires 0 <= k < |w.order| =>
      if w.order[k] in w.receipts then Share(w.receipts[w.order[k]], w.order[k] in w.completed, c) else 0)
  }

  /** What a card started with: its balance when the run began, or the stand's figure for a new card. */
  function OpeningOf(w0: World, st: Settings, c: int): int {
    if c in w0.cards then w0.cards[c].balance else st.cardBalance
  }

  /** Every card holds its opening figure and what its receipts did to it, and a frozen card just the former. */
  predicate Booked(w0: World, st: Settings, w: World) {
    && w0.lastCard <= w.lastCard
    && forall c :: c in w.cards ==>
         w.cards[c].balance == OpeningOf(w0, st, c) + if w.cards[c].frozen then 0 else Sum(Shares(w, c))
  }

  predicate Solvent(w: World) { forall c :: c in w.cards ==> 0 <= w.cards[c].balance }

  lemma ReplacedShares(w: World, w': World, r: ReceiptRow, c: int)
    requires Shelved(w) && Replaced(w, w', r)
    requires w'.completed == w.completed || w'.completed == w.completed + {r.id}
    ensures Sum(Shares(w', c)) ==
            Sum(Shares(w, c)) - Share(w.receipts[r.id], r.id in w.completed, c) + Share(r, r.id in w'.completed, c)
  {
    var k :| 0 <= k < |w.order| && w.order[k] == r.id;
    var share := Share(r, r.id in w'.completed, c);
    assert Shares(w', c) == Shares(w, c)[k := share];
    SumUpdate(Shares(w, c), k, share);
  }

  /** A receipt is replaced and one card moves by exactly what the receipt's share of it changed. */
  lemma ReplacedBooked(w0: World, st: Settings, w: World, w': World, r: ReceiptRow, c: int, delta: int)
    requires Booked(w0, st, w) && Shelved(w) && Replaced(w, w', r)
    requires w'.completed == w.completed || w'.completed == w.completed + {r.id}
    requires c in w.cards ==> w'.cards == w.cards[c := w.cards[c].Moved(delta)]
    requires c !in w.cards ==> w'.cards == w.cards
    requires forall d :: d in w.cards ==>
      Share(r, r.id in w'.completed, d) - Share(w.receipts[r.id], r.id in w.completed, d) == if d == c then delta else 0
    ensures Booked(w0, st, w')
  {
    forall d | d in w'.cards
      ensures w'.cards[d].balance == OpeningOf(w0, st, d) + if w'.cards[d].frozen then 0 else Sum(Shares(w', d))
    {
      ReplacedShares(w, w', r, d);
    }
  }

  lemma SameShares(w: World, w': World, c: int)
    requires w'.order == w.order && w'.receipts == w.receipts && w'.completed == w.completed
    ensures Shares(w', c) == Shares(w, c)
  {
  }

  /** Cards keep their balances and receipts stay as they are. */
  lemma AsideBooked(w0: World, st: Settings, w: World, w': World)
    requires Booked(w0, st, w)
    requires w'.order == w.order && w'.receipts == w.receipts && w'.completed == w.completed
    requires w'.lastCard == w.lastCard && w'.cards.Keys == w.cards.Keys
    requires forall c :: c in w.cards ==>
      w'.cards[c].balance == w.cards[c].balance && w'.cards[c].frozen == w.cards[c].frozen
    ensures Booked(w0, st, w') && (Solvent(w) ==> Solvent(w'))
  {
    forall d | d in w'.cards
      ensures w'.cards[d].balance == OpeningOf(w0, st, d) + if w'.cards[d].frozen then 0 else Sum(Shares(w', d))
    {
      SameShares(w, w', d);
    }
  }

  lemma SharesAdd(w: World, r: ReceiptRow, c: int)
    requires Shelved(w) && r.id !in w.receipts && r.state.Created? && r.id !in w.completed
    ensures Sum(Shares(w.AddReceipt(r), c)) == Sum(Shares(w, c))
  {
    hide Sum;
    var before, after := Shares(w, c), Shares(w.AddReceipt(r), c);
    forall k | 0 <= k < |w.order| ensures after[k] == before[k] {
      assert w.order[k] in w.receipts;
    }
    assert after == before + [0];
    SumAppend(before, 0);
  }

  lemma AddedBooked(w0: World, st: Settings, w: World, r: ReceiptRow)
    requires Booked(w0, st, w) && Shelved(w) && r.id !in w.receipts && r.state.Created? && r.id !in w.completed
    ensures Booked(w0, st, w.AddReceipt(r))
  {
    var w' := w.AddReceipt(r);
    forall d | d in w'.cards
      ensures w'.cards[d].balance == OpeningOf(w0, st, d) + if w'.cards[d].frozen then 0 else Sum(Shares(w', d))
    {
      SharesAdd(w, r, d);
    }
  }

  lemma NewCardBooked(w0: World, st: Settings, w: World, p: CardParams, token: string, now: int)
    requires Booked(w0, st, w) && Carded(w) && Carded(w0) && Shelved(w)
    requires ByNumber(w.cards, p.number).None? && p.number != "" && p.expire != ""
    ensures Booked(w0, st, CardsCreate(w, st, p, token, now).0)
  {
    var w' := CardsCreate(w, st, p, token, now).0;
    var next := w.lastCard + 1;
    assert next !in w.cards && next !in w0.cards;
    forall d | d in w'.cards
      ensures w'.cards[d].balance == OpeningOf(w0, st, d) + if w'.cards[d].frozen then 0 else Sum(Shares(w', d))
    {
      SameShares(w, w', d);
      if d == next {
        forall k | 0 <= k < |w.order| ensures Shares(w', d)[k] == 0 {
          assert w.order[k] in w.receipts;
        }
        SumZero(Shares(w', d));
      }
    }
  }

  lemma CreateCardBooked(w0: World, st: Settings, w: World, p: CardParams, token: string, now: int)
    requires Booked(w0, st, w) && Carded(w) && Carded(w0) && Shelved(w)
    ensures Booked(w0, st, CardsCreate(w, st, p, token, now).0)
  {
    if p.number != "" && p.expire != "" {
      if ByNumber(w.cards, p.number).None? {
        NewCardBooked(w0, st, w, p, token, now);
      } else {
        AsideBooked(w0, st, w, CardsCreate(w, st, p, token, now).0);
      }
    }
  }

  lemma CreateCardSolvent(w: World, st: Settings, p: CardParams, token: string, now: int)
    requires Solvent(w) && 0 <= st.cardBalance
    ensures Solvent(CardsCreate(w, st, p, token, now).0)
  {
  }

  lemma GetVerifyCodeBooked(w0: World, st: Settings, w: World, token: string, now: int)
    requires Booked(w0, st, w) && Carded(w) && w.LoadCard(token).Ok?
    ensures var w' := CardsGetVerifyCode(w, st, token, now).0; Booked(w0, st, w') && (Solvent(w) ==> Solvent(w'))
  {
    LoadedCard(w, token);
    AsideBooked(w0, st, w, CardsGetVerifyCode(w, st, token, now).0);
  }

  lemma VerifyBooked(w0: World, st: Settings, w: World, token: string, code: string, now: int)
    requires Booked(w0, st, w) && Carded(w) && w.LoadCard(token).Ok?
    ensures var w' := CardsVerify(w, token, code, now).0; Booked(w0, st, w') && (Solvent(w) ==> Solvent(w'))
  {
    LoadedCard(w, token);
    AsideBooked(w0, st, w, CardsVerify(w, token, code, now).0);
  }

  lemma RemoveBooked(w0: World, st: Settings, w: World, token: string)
    requires Booked(w0, st, w) && Carded(w) && w.LoadCard(token).Ok?
    ensures var w' := CardsRemove(w, token).0; Booked(w0, st, w') && (Solvent(w) ==> Solvent(w'))
  {
    LoadedCard(w, token);
    AsideBooked(w0, st, w, CardsRemove(w, token).0);
  }

  lemma LoadedCard(w: World, token: string)
    requires Carded(w) && w.LoadCard(token).Ok?
    ensures var card := w.LoadCard(token).value; card.id in w.cards && w.cards[card.id] == card
  {
    var c := w.tokens[token];
    assert w.cards[c].id == c;
  }

  /** A balance that is moved stays in the black when what leaves it was there. */
  lemma MovedSolvent(w: World, w': World, c: int, delta: int)
    requires Solvent(w) && c in w.cards && w'.cards == w.cards[c := w.cards[c].Moved(delta)]
    requires 0 <= w.cards[c].balance + delta
    ensures Solvent(w')
  {
  }

  lemma PayBooked(w0: World, st: Settings, w: World, id: string, token: string, hold: bool, txn: string, now: int,
                  books: Merchant.Books, answer: Result<()>)
    requires Booked(w0, st, w) && Shelved(w) && Carded(w) && Completions(w) && w.attached
    ensures var w' := PayAnswered(w, st, id, token, hold, txn, now, books, answer).0;
      Booked(w0, st, w') && (Solvent(w) ==> Solvent(w'))
  {
    hide PayAnswered, Booked, Solvent, Carded;
    var (w', r) := PayAnswered(w, st, id, token, hold, txn, now, books, answer);
    if r.Ok? {
      PayLoads(w, st, id, token, hold, txn, now, books, answer);
      LoadedCard(w, token);
      PayReplaces(w, st, id, token, hold, txn, now, books, answer);
      PaidBooked(w0, st, w, w', r.value, w.LoadCard(token).value);
    } else {
      PayRefused(w, st, id, token, hold, txn, now, books, answer);
      AsideBooked(w0, st, w, w');
    }
  }

  lemma PayLoads(w: World, st: Settings, id: string, token: string, hold: bool, txn: string, now: int,
                 books: Merchant.Books, answer: Result<()>)
    requires PayAnswered(w, st, id, token, hold, txn, now, books, answer).1.Ok?
    ensures id in w.receipts && w.LoadCard(token).Ok?
  {
  }

  lemma PaidBooked(w0: World, st: Settings, w: World, w': World, r: ReceiptRow, card: CardRow)
    requires Booked(w0, st, w) && Shelved(w) && Replaced(w, w', r) && w'.completed == w.completed
    requires w.receipts[r.id].state.Created? && r.state.Checking? && r.cardID == Some(card.id)
    requires r.id !in w.completed
    requires card.id in w.cards && w.cards[card.id] == card && r.amount <= card.balance
    requires w'.cards == w.cards[card.id := card.Moved(-r.amount)]
    ensures Booked(w0, st, w') && (Solvent(w) ==> Solvent(w'))
  {
    ReplacedBooked(w0, st, w, w', r, card.id, -r.amount);
    if Solvent(w) {
      MovedSolvent(w, w', card.id, -r.amount);
    }
  }

  lemma CancelBooked(w0: World, st: Settings, w: World, id: string, now: int)
    requires Booked(w0, st, w) && Shelved(w) && Carded(w) && Completions(w) && w.attached
    requires id in w.receipts ==> OnWalk(w.receipts[id], now)
    ensures var w' := ReceiptsCancel(w, id, now).0; Booked(w0, st, w') && (Solvent(w) ==> Solvent(w'))
  {
    var (w', r) := ReceiptsCancel(w, id, now);
    if r.Ok? && !w.receipts[id].state.CancelQueued? && !w.receipts[id].state.Cancelled? {
      CancelReplaces(w, id, now);
      RefundedCards(w, r.value);
      CancelledBooked(w0, st, w, w', r.value, now);
    }
  }

  lemma CancelledBooked(w0: World, st: Settings, w: World, w': World, r: ReceiptRow, now: int)
    requires Booked(w0, st, w) && Shelved(w) && Carded(w) && Replaced(w, w', r) && w'.completed == w.completed
    requires OnWalk(w.receipts[r.id], now)
    requires var was := w.receipts[r.id];
      && r == was.(state := r.state, cancelTime := r.cancelTime)
      && !was.state.CancelQueued? && !was.state.Cancelled?
      && r.state == (if was.state.Created? then Cancelled else CancelQueued)
      && (r.id in w.completed ==> was.state.Paid?)
    requires w'.cards == if r.payTime != 0 && r.cardID.Some? && r.cardID.value in w.cards
                         then w.cards[r.cardID.value := w.cards[r.cardID.value].Moved(r.amount)] else w.cards
    ensures Booked(w0, st, w') && (Solvent(w) ==> Solvent(w'))
  {
    if r.payTime != 0 {
      ReplacedBooked(w0, st, w, w', r, r.cardID.value, r.amount);
      if Solvent(w) {
        MovedSolvent(w, w', r.cardID.value, r.amount);
      }
    } else {
      RestingBooked(w0, st, w, w', r);
    }
  }

  /** A receipt moves without its share of any card changing. */
  lemma RestingBooked(w0: World, st: Settings, w: World, w': World, r: ReceiptRow)
    requires Booked(w0, st, w) && Shelved(w) && Replaced(w, w', r) && w'.completed == w.completed && w'.cards == w.cards
    requires forall d :: d in w.cards ==>
      Share(r, r.id in w.completed, d) == Share(w.receipts[r.id], r.id in w.completed, d)
    ensures Booked(w0, st, w') && (Solvent(w) ==> Solvent(w'))
  {
    forall d | d in w'.cards
      ensures w'.cards[d].balance == OpeningOf(w0, st, d) + if w'.cards[d].frozen then 0 else Sum(Shares(w', d))
    {
      ReplacedShares(w, w', r, d);
    }
  }

  lemma ConfirmHoldBooked(w0: World, st: Settings, w: World, id: string, now: int)
    requires Booked(w0, st, w) && Shelved(w) && Completions(w)
    ensures var w' := ReceiptsConfirmHold(w, id, now).0; Booked(w0, st, w') && (Solvent(w) ==> Solvent(w'))
  {
    var (w', r) := ReceiptsConfirmHold(w, id, now);
    if r.Ok? {
      RestingBooked(w0, st, w, w', r.value);
    }
  }

  lemma CompleteBooked(w0: World, st: Settings, w: World, id: string, token: string, amount: int, now: int,
                       answer: Result<Merchant.Books>)
    requires Booked(w0, st, w) && Shelved(w) && Carded(w) && Completions(w)
    requires id in w.receipts ==> 0 < w.receipts[id].amount
    ensures var w' := CompleteAnswered(w, id, token, amount, now, answer).0;
      Booked(w0, st, w') && (Solvent(w) ==> Solvent(w'))
  {
    var (w', r) := CompleteAnswered(w, id, token, amount, now, answer);
    if r.Ok? {
      Loaded(w, token, id);
      CompleteReplaces(w, id, token, amount, now, answer);
      if !w.receipts[id].state.Paid? {
        CompletedBooked(w0, st, w, w', r.value);
      }
    }
  }

  lemma CompletedBooked(w0: World, st: Settings, w: World, w': World, r: ReceiptRow)
    requires Booked(w0, st, w) && Shelved(w) && Replaced(w, w', r) && w'.completed == w.completed + {r.id}
    requires w.receipts[r.id].state.Created? && r.state.Paid? && r.id !in w.completed && 0 < r.amount
    requires r.cardID.Some? && r.cardID.value in w.cards
    requires w'.cards == w.cards[r.cardID.value := w.cards[r.cardID.value].Moved(r.amount)]
    ensures Booked(w0, st, w') && (Solvent(w) ==> Solvent(w'))
  {
    ReplacedBooked(w0, st, w, w', r, r.cardID.value, r.amount);
    if Solvent(w) {
      MovedSolvent(w, w', r.cardID.value, r.amount);
    }
  }

  lemma RunStepBooked(w0: World, st: Settings, w: World, id: string, now: int)
    requires Booked(w0, st, w) && Shelved(w) && Completions(w) && w.attached
    requires id in w.pending && id in w.receipts && OnWalk(w.receipts[id], now) && !w.receipts[id].state.Created? && 0 < now
    ensures var w' := RunStep(w, id, now); Booked(w0, st, w') && (Solvent(w) ==> Solvent(w'))
  {
    RunStepReplaces(w, id, now);
    AdvanceOnWalk(w.receipts[id], now);
    AdvancedBooked(w0, st, w, RunStep(w, id, now), w.receipts[id].AfterAdvance(now), now);
  }

  lemma AdvancedBooked(w0: World, st: Settings, w: World, w': World, r: ReceiptRow, now: int)
    requires Booked(w0, st, w) && Shelved(w) && Completions(w) && Replaced(w, w', r)
    requires w'.completed == w.completed && w'.cards == w.cards
    requires !w.receipts[r.id].state.Created? && r == w.receipts[r.id].AfterAdvance(now)
    ensures Booked(w0, st, w') && (Solvent(w) ==> Solvent(w'))
  {
    RestingBooked(w0, st, w, w', r);
  }

  lemma CreateReceiptBooked(w0: World, st: Settings, w: World, amount: int, account: map<string, string>, hold: bool,
                            id: string, now: int)
    requires Booked(w0, st, w) && Sound(w, now) && id !in w.receipts
    ensures var w' := ReceiptsCreate(w, st, amount, account, hold, id, now).0;
      Booked(w0, st, w') && (Solvent(w) ==> Solvent(w'))
  {
    var w' := ReceiptsCreate(w, st, amount, account, hold, id, now).0;
    AsideBooked(w0, st, w, w.(books := w'.books));
    if id in w'.receipts {
      AddedBooked(w0, st, w.(books := w'.books), w'.receipts[id]);
    }
  }

  lemma CreatePayoutBooked(w0: World, st: Settings, w: World, amount: int, token: string, account: map<string, string>,
                           id: string, txn: string, now: int, answer: Result<Merchant.Books>)
    requires Booked(w0, st, w) && Shelved(w) && Completions(w) && id !in w.receipts
    ensures var w' := CreateAnswered(w, amount, token, account, id, txn, now, answer).0;
      Booked(w0, st, w') && (Solvent(w) ==> Solvent(w'))
  {
    var w' := CreateAnswered(w, amount, token, account, id, txn, now, answer).0;
    CreatePayoutAdds(w, amount, token, account, id, txn, now, answer);
    if w' != w {
      var r := NewPayout(w.LoadCard(token).value, amount, account, id, txn, now);
      AddedBooked(w0, st, w, r);
      AsideBooked(w0, st, w.AddReceipt(r), w');
    }
  }

  lemma StepBooked(w0: World, st: Settings, w: World, call: Call, now: int)
    requires Booked(w0, st, w) && Sound(w, now) && Carded(w0) && Issued(w, call)
    ensures var w' := Step(w, st, call, now);
      Booked(w0, st, w') && (Solvent(w) && 0 <= st.cardBalance ==> Solvent(w'))
  {
    match call
    case CreateCard(p, token) =>
      CreateCardBooked(w0, st, w, p, token, now);
      if Solvent(w) && 0 <= st.cardBalance {
        CreateCardSolvent(w, st, p, token, now);
      }
    case GetVerifyCode(token) => if w.LoadCard(token).Ok? { GetVerifyCodeBooked(w0, st, w, token, now); }
    case Verify(token, code) => if w.LoadCard(token).Ok? { VerifyBooked(w0, st, w, token, code, now); }
    case RemoveCard(token) => if w.LoadCard(token).Ok? { RemoveBooked(w0, st, w, token); }
    case CreateReceipt(amount, account, hold, id) => CreateReceiptBooked(w0, st, w, amount, account, hold, id, now);
    case Pay(id, token, hold, draw) =>
      if w.LoadReceipt(id).Ok? {
        var receipt := w.receipts[id];
        var (books, answer) := Chain(w.books, st.merchant, receipt.amount, receipt.account, now, draw);
        PayBooked(w0, st, w, id, token, hold, draw.txn, now, books, answer);
      }
    case ConfirmHold(id) => ConfirmHoldBooked(w0, st, w, id, now);
    case Cancel(id) => CancelBooked(w0, st, w, id, now);
    case CreatePayout(amount, token, account, id, txn) =>
      var payout := Payout(txn, amount, account, now, 0);
      CreatePayoutBooked(w0, st, w, amount, token, account, id, txn, now,
                         if st.ledger then OpenPayout(w.books, payout) else Ok(w.books));
    case CompletePayout(id, token, amount) =>
      if w.LoadReceipt(id).Ok? {
        CompleteBooked(w0, st, w, id, token, amount, now, Settlement(w, st, w.receipts[id], now));
      }
    case Tick(id) => if id in w.pending { RunStepBooked(w0, st, w, id, now); }
    case ToMerchant(_) => AsideBooked(w0, st, w, Step(w, st, call, now));
  }

  /**
    Over every run, with pays, cancels and completes repeated at will: each unfrozen card
    holds its opening figure and the shares of its receipts, each counted once; a frozen
    card's balance never moves; and no balance ever goes below zero.
   */
  lemma {:induction false} RunBooked(w: World, st: Settings, deliveries: seq<Delivery>)
    requires Opening(w) && Proper(w, st, deliveries)
    ensures var w' := Run(w, st, deliveries);
      Booked(w, st, w') && (Solvent(w) && 0 <= st.cardBalance ==> Solvent(w'))
  {
    hide Step;
    if deliveries == [] {
      forall c ensures Sum(Shares(w, c)) == 0 {
        assert Shares(w, c) == [];
      }
    } else {
      var n := |deliveries| - 1;
      RunBooked(w, st, deliveries[..n]);
      RunSound(w, st, deliveries[..n]);
      var before := Run(w, st, deliveries[..n]);
      LaterSound(before, Latest(deliveries[..n]), deliveries[n].now);
      StepBooked(w, st, before, deliveries[n].call, deliveries[n].now);
    }
  }

  // ---------- exactly once ----------

  /** The amounts of a card's receipts whose money is out: in checking, withdrawn, closing, paid or held. */
  function ChargedOut(w: World, c: int): int { Sum(ChargedAmounts(w, c)) }

  function ChargedAmounts(w: World, c: int): seq<int> {
    seq(|w.order|, k requires 0 <= k < |w.order| =>
      if w.order[k] in w.receipts && w.receipts[w.order[k]].cardID == Some(c) &&
         w.order[k] !in w.completed && Charged(w.receipts[w.order[k]].state)
      then w.receipts[w.order[k]].amount else 0)
  }

  /** The amounts of a card's payouts that were settled. */
  function PaidIn(w: World, c: int): int { Sum(PaidInAmounts(w, c)) }

  function PaidInAmounts(w: World, c: int): seq<int> {
    seq(|w.order|, k requires 0 <= k < |w.order| =>
      if w.order[k] in w.receipts && w.receipts[w.order[k]].cardID == Some(c) && w.order[k] in w.completed
      then w.receipts[w.order[k]].amount else 0)
  }

  /** The receipt at k is a settled payout of the card that was cancelled afterwards. */
  predicate Undone(w: World, c: int, k: nat)
    requires k < |w.order|
  {
    w.order[k] in w.completed && w.order[k] in w.receipts &&
    w.receipts[w.order[k]].cardID == Some(c) && !w.receipts[w.order[k]].state.Paid?
  }

  predicate PayoutUndone(w: World, c: int) { exists k :: 0 <= k < |w.order| && Undone(w, c, k) }

  /**
    Every payment is charged and refunded exactly once, and every payout credited exactly
    once, if and only if no settled payout of the card has been cancelled: a cancellation
    credits the amount again instead of taking it back.
   */
  lemma ExactlyOnce(w: World, st: Settings, deliveries: seq<Delivery>, c: int)
    requires Opening(w) && Proper(w, st, deliveries)
    ensures var w' := Run(w, st, deliveries);
      c in w'.cards && !w'.cards[c].frozen ==>
      && OpeningOf(w, st, c) - ChargedOut(w', c) + PaidIn(w', c) <= w'.cards[c].balance
      && (w'.cards[c].balance == OpeningOf(w, st, c) - ChargedOut(w', c) + PaidIn(w', c) <==> !PayoutUndone(w', c))
  {
    var w' := Run(w, st, deliveries);
    RunBooked(w, st, deliveries);
    RunSound(w, st, deliveries);
    SharesSplit(w', c, Latest(deliveries));
  }

  /** A settled payout that is cancelled credits its unfrozen card a second time, and is such a payout. */
  lemma CancelUndoesPayout(w: World, id: string, now: int)
    requires Sound(w, now) && id in w.completed && w.receipts[id].state.Paid?
    ensures var was := w.receipts[id]; var (w', r) := ReceiptsCancel(w, id, now);
      && r.Ok? && was.cardID.Some? && was.cardID.value in w.cards && was.payout
      && PayoutUndone(w', was.cardID.value)
      && (!w.cards[was.cardID.value].frozen ==>
           w'.cards[was.cardID.value].balance == w.cards[was.cardID.value].balance + was.amount)
  {
    var (w', r) := ReceiptsCancel(w, id, now);
    assert OnWalk(w.receipts[id], now);
    CancelReplaces(w, id, now);
    RefundedCards(w, r.value);
    hide ReceiptsCancel, Refunded;
    var k :| 0 <= k < |w.order| && w.order[k] == id;
    assert Undone(w', w.receipts[id].cardID.value, k);
  }

  /** One receipt's share against its part of the two totals. */
  lemma ShareSplit(r: ReceiptRow, completed: bool, c: int, now: int)
    requires OnWalk(r, now) && (completed ==> r.state.Paid? || r.state.CancelQueued? || r.state.Cancelled?)
    ensures var out := if r.cardID == Some(c) && !completed && Charged(r.state) then r.amount else 0;
      var paid := if r.cardID == Some(c) && completed then r.amount else 0;
      var undone := completed && r.cardID == Some(c) && !r.state.Paid?;
      && paid - out <= Share(r, completed, c)
      && (paid - out == Share(r, completed, c) <==> !undone)
  {
  }

  lemma SharesSplit(w: World, c: int, now: int)
    requires Shelved(w) && Walks(w, now) && Completions(w)
    ensures PaidIn(w, c) - ChargedOut(w, c) <= Sum(Shares(w, c))
    ensures Sum(Shares(w, c)) == PaidIn(w, c) - ChargedOut(w, c) <==> !PayoutUndone(w, c)
  {
    var out, paid, shares := ChargedAmounts(w, c), PaidInAmounts(w, c), Shares(w, c);
    var owed := seq(|w.order|, k requires 0 <= k < |w.order| => -out[k]);
    var net := seq(|w.order|, k requires 0 <= k < |w.order| => owed[k] + paid[k]);
    SumScale(out, owed, -1);
    SumPlus(owed, paid, net);
    forall k | 0 <= k < |shares|
      ensures net[k] <= shares[k]
      ensures net[k] == shares[k] <==> !Undone(w, c, k)
    {
      assert w.order[k] in w.receipts;
      ShareSplit(w.receipts[w.order[k]], w.order[k] in w.completed, c, now);
    }
    SumAtMost(net, shares);
    if PayoutUndone(w, c) {
      var k :| 0 <= k < |w.order| && Undone(w, c, k);
      assert net[k] != shares[k];
    } else {
      assert forall k :: 0 <= k < |shares| ==> !Undone(w, c, k);
      assert net == shares;
    }
  }
}
