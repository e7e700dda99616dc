/** What the card and receipt indexes answer, over every run. */
module SubscribeCards {
  import opened Common
  import opened SubscribeModel
  import opened SubscribeProofs
  import Merchant = MerchantModel

  /** A card that was just created, or handed back, is found again by its token and by its identifier. */
  lemma CreatedIsFound(w: World, st: Settings, p: CardParams, token: string, now: int)
    requires Carded(w) && token != "" && token !in w.tokens
    requires CardsCreate(w, st, p, token, now).1.Ok?
    ensures var (w', r) := CardsCreate(w, st, p, token, now); var card := r.value;
      && card.token != "" && w'.LoadCard(card.token) == Ok(card)
      && card.id in w'.cards && w'.cards[card.id] == card && card.number == p.number
      && (card.id in w.cards ==>
           card == Reregistered(w.cards[card.id].(token := card.token), p, now) &&
           (w.cards[card.id].token != "" ==> card.token == w.cards[card.id].token))
  {
    if ByNumber(w.cards, p.number).Some? {
      var c := ByNumber(w.cards, p.number).value;
      assert w.cards[c].id == c;
    }
  }

  /** The card is still on file under its identifier and number, and its first token still leads to it. */
  predicate SameCard(w: World, w': World, c: int)
    requires c in w.cards
  {
    && c in w'.cards && w'.cards[c].id == w.cards[c].id && w'.cards[c].number == w.cards[c].number
    && (w.cards[c].token != "" ==> w'.cards[c].token == w.cards[c].token)
  }

  lemma CardEditsSame(w: World, st: Settings, token: string, code: string, now: int, c: int)
    requires Carded(w) && c in w.cards
    ensures SameCard(w, CardsGetVerifyCode(w, st, token, now).0, c)
    ensures SameCard(w, CardsVerify(w, token, code, now).0, c)
    ensures SameCard(w, CardsRemove(w, token).0, c)
  {
    if w.LoadCard(token).Ok? {
      assert w.cards[w.tokens[token]].id == w.tokens[token];
    }
  }

  lemma CreateSame(w: World, st: Settings, p: CardParams, token: string, now: int, c: int)
    requires Carded(w) && c in w.cards
    ensures SameCard(w, CardsCreate(w, st, p, token, now).0, c)
  {
  }

  lemma PaySame(w: World, st: Settings, id: string, token: string, hold: bool, draw: PayDraw, now: int, c: int)
    requires Shelved(w) && Carded(w) && w.attached && c in w.cards
    ensures SameCard(w, ReceiptsPay(w, st, id, token, hold, draw, now).0, c)
  {
    if w.LoadReceipt(id).Ok? {
      var receipt := w.receipts[id];
      var (books, answer) := Chain(w.books, st.merchant, receipt.amount, receipt.account, now, draw);
      var r := PayAnswered(w, st, id, token, hold, draw.txn, now, books, answer).1;
      if r.Ok? {
        Loaded(w, token, id);
        PayReplaces(w, st, id, token, hold, draw.txn, now, books, answer);
      } else {
        PayRefused(w, st, id, token, hold, draw.txn, now, books, answer);
      }
    }
  }

  lemma CancelSame(w: World, id: string, now: int, c: int)
    requires Shelved(w) && Carded(w) && w.attached && c in w.cards
    ensures SameCard(w, ReceiptsCancel(w, id, now).0, c)
  {
    if ReceiptsCancel(w, id, now).1.Ok? {
      CancelReplaces(w, id, now);
    }
  }

  lemma CompleteSame(w: World, st: Settings, id: string, token: string, amount: int, now: int, c: int)
    requires Shelved(w) && Carded(w) && c in w.cards
    ensures SameCard(w, TransactionsComplete(w, st, id, token, amount, now).0, c)
  {
    if w.LoadReceipt(id).Ok? {
      var answer := Settlement(w, st, w.receipts[id], now);
      if CompleteAnswered(w, id, token, amount, now, answer).1.Ok? {
        Loaded(w, token, id);
        CompleteReplaces(w, id, token, amount, now, answer);
      }
    }
  }

  lemma CreateReceiptCards(w: World, st: Settings, amount: int, account: map<string, string>, hold: bool, id: string, now: int)
    ensures ReceiptsCreate(w, st, amount, account, hold, id, now).0.cards == w.cards
  {
    hide Merchant.CheckPerform;
  }

  lemma WalkCards(w: World, id: string, now: int)
    ensures ReceiptsConfirmHold(w, id, now).0.cards == w.cards
    ensures id in w.pending ==> RunStep(w, id, now).cards == w.cards
  {
  }

  lemma CreatePayoutCards(w: World, st: Settings, amount: int, token: string, account: map<string, string>,
                          id: string, txn: string, now: int)
    ensures TransactionsCreate(w, st, amount, token, account, id, txn, now).0.cards == w.cards
  {
    hide CreateAnswered, OpenPayout;
    CreatePayoutAdds(w, amount, token, account, id, txn, now,
                     if st.ledger then OpenPayout(w.books, Payout(txn, amount, account, now, 0)) else Ok(w.books));
  }

  /** Calls about receipts and the register that do not touch a card at all. */
  lemma OtherCallSame(w: World, st: Settings, call: Call, now: int)
    requires call.CreateReceipt? || call.ConfirmHold? || call.CreatePayout? || call.Tick? || call.ToMerchant?
    ensures Step(w, st, call, now).cards == w.cards
  {
    hide Merchant.Step, CardsCreate, CardsGetVerifyCode, CardsVerify, CardsRemove, ReceiptsCreate, ReceiptsPay,
      ReceiptsConfirmHold, ReceiptsCancel, TransactionsCreate, TransactionsComplete, RunStep;
    match call
    case CreateReceipt(amount, account, hold, id) => CreateReceiptCards(w, st, amount, account, hold, id, now);
    case ConfirmHold(id) => WalkCards(w, id, now);
    case CreatePayout(amount, token, account, id, txn) => CreatePayoutCards(w, st, amount, token, account, id, txn, now);
    case Tick(id) => WalkCards(w, id, now);
    case ToMerchant(_) =>
  }

  lemma StepSame(w: World, st: Settings, call: Call, now: int, c: int)
    requires Sound(w, now) && c in w.cards
    ensures SameCard(w, Step(w, st, call, now), c)
  {
    match call
    case Pay(id, token, hold, draw) => PaySame(w, st, id, token, hold, draw, now, c);
    case Cancel(id) => CancelSame(w, id, now, c);
    case CompletePayout(id, token, amount) => CompleteSame(w, st, id, token, amount, now, c);
    case CreateCard(p, token) => CreateSame(w, st, p, token, now, c);
    case GetVerifyCode(token) => CardEditsSame(w, st, token, "", now, c);
    case Verify(token, code) => CardEditsSame(w, st, token, code, now, c);
    case RemoveCard(token) => CardEditsSame(w, st, token, "", now, c);
    case _ => OtherCallSame(w, st, call, now);
  }

  /** A card is on file for good, and the first token it was given leads to it through every later run. */
  lemma {:induction false} FirstTokenStays(w: World, st: Settings, past: seq<Delivery>, deliveries: seq<Delivery>, c: int)
    requires Opening(w) && Proper(w, st, past + deliveries) && c in Run(w, st, past).cards
    ensures var before, after := Run(w, st, past), Run(w, st, past + deliveries);
      && SameCard(before, after, c)
      && (before.cards[c].token != "" ==>
           before.cards[c].token in after.tokens && after.tokens[before.cards[c].token] == c)
  {
    hide Step, Run, Opening, Sound;
    if deliveries == [] {
      assert past + deliveries == past;
      RunSound(w, st, past);
      TokensLead(Run(w, st, past), Latest(past), c);
    } else {
      var n := |deliveries| - 1;
      LastDelivery(w, st, past, deliveries);
      FirstTokenStays(w, st, past, deliveries[..n], c);
      StepSame(Run(w, st, past + deliveries[..n]), st, deliveries[n].call, deliveries[n].now, c);
      RunSound(w, st, past + deliveries);
      TokensLead(Run(w, st, past + deliveries), Latest(past + deliveries), c);
    }
  }

  lemma TokensLead(w: World, now: int, c: int)
    requires Sound(w, now) && c in w.cards
    ensures w.cards[c].token != "" ==> w.cards[c].token in w.tokens && w.tokens[w.cards[c].token] == c
  {
  }

  /**
    Over every run the indexes agree with their stores: every token leads to a held card, no
    two cards share a number, and the receipt list names each stored receipt exactly once.
   */
  lemma IndexesAgree(w: World, st: Settings, deliveries: seq<Delivery>, token: string, id: string, c: int, d: int)
    requires Opening(w) && Proper(w, st, deliveries)
    ensures var w' := Run(w, st, deliveries);
      && (token in w'.tokens ==> w'.tokens[token] in w'.cards)
      && (c in w'.cards && d in w'.cards && c != d ==> w'.cards[c].number != w'.cards[d].number)
      && multiset(w'.order)[id] == if id in w'.receipts then 1 else 0
  {
    RunSound(w, st, deliveries);
    var w' := Run(w, st, deliveries);
    OnceEach(w'.order, id);
    assert id in w'.order <==> id in w'.receipts;
  }

  lemma {:induction false} OnceEach(order: seq<string>, id: string)
    requires forall i, j :: 0 <= i < j < |order| ==> order[i] != order[j]
    ensures multiset(order)[id] == if id in order then 1 else 0
  {
    if order != [] {
      var n := |order| - 1;
      OnceEach(order[..n], id);
      assert order == order[..n] + [order[n]];
    }
  }

  /**
    A code that was sent confirms the card exactly when it is the one sent or the shared one,
    the window has not passed, and the card is not rigged to fail; it works once, and then the
    card pays what it holds, unless it is rigged to refuse.
   */
  lemma CodeWorksOnceInTime(w: World, st: Settings, token: string, code: string, sent: int, at: int,
                            again: string, later: int, amount: int)
    requires Carded(w) && CardsGetVerifyCode(w, st, token, sent).1.Ok?
    ensures var (w1, wait) := CardsGetVerifyCode(w, st, token, sent);
      var (w2, r) := CardsVerify(w1, token, code, at);
      var card := w.LoadCard(token).value;
      var expected := card.ExpectedVerifyCode(st.verifyCode);
      && (r.Ok? <==> !card.outcome.VerifyFailed? && expected != "" && (code == expected || code == DEFAULT_VERIFY_CODE) &&
                     at - sent <= wait.value)
      && (r.Err? ==> w2 == w1 && w1.LoadCard(token).Ok? && w1.LoadCard(token).value.verify == card.verify)
      && (r.Ok? ==>
           && CardsVerify(w2, token, again, later) == (w2, Err(CannotPerform))
           && w2.LoadCard(token).Ok? && w2.LoadCard(token).value == r.value
           && (r.value.Usable(amount).Ok? <==> card.outcome.Success? && amount <= card.balance))
  {
    TokenNames(w, token);
    var w1 := CardsGetVerifyCode(w, st, token, sent).0;
    assert w1.cards == w.cards[w.tokens[token] := w1.cards[w.tokens[token]]];
  }

  lemma TokenNames(w: World, token: string)
    requires Carded(w) && w.LoadCard(token).Ok?
    ensures w.cards[w.tokens[token]].id == w.tokens[token]
  {
  }
}
