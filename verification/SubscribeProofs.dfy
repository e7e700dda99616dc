/**
  What every run of the Subscribe API keeps: the stores agree with their indexes, receipts
  stay on their walk, and none is stranded mid-way.
 */
module SubscribeProofs {
  import opened Common
  import opened SubscribeModel
  import Merchant = MerchantModel

  // ---------- the stores and their indexes ----------

  /** The receipt list names each stored receipt exactly once. */
  predicate Shelved(w: World) {
    && (forall i, j :: 0 <= i < j < |w.order| ==> w.order[i] != w.order[j])
    && (forall i :: 0 <= i < |w.order| ==> w.order[i] in w.receipts)
    && (forall id :: id in w.receipts ==> id in w.order && w.receipts[id].id == id && id != "")
  }

  /** Every token leads to a held card, and a card with a token is found by it. */
  predicate Carded(w: World) {
    && (forall c :: c in w.cards ==> w.cards[c].id == c && c <= w.lastCard)
    && (forall t :: t in w.tokens ==> w.tokens[t] in w.cards)
    && (forall c :: c in w.cards && w.cards[c].token != "" ==>
         w.cards[c].token in w.tokens && w.tokens[w.cards[c].token] == c)
    && (forall c, d :: c in w.cards && d in w.cards && c != d ==> w.cards[c].number != w.cards[d].number)
    && (forall id :: id in w.receipts && w.receipts[id].cardID.Some? ==> w.receipts[id].cardID.value in w.cards)
  }

  // ---------- one receipt's walk ----------

  /** Money has left a card for this receipt and has not been given back. */
  predicate Charged(s: ReceiptState) { s.Checking? || s.Withdrawn? || s.Closing? || s.Paid? || s.Held? }

  /** The states a receipt can be in, with the times and marks each implies. */
  predicate OnWalk(r: ReceiptRow, now: int) {
    && 0 < r.amount && 0 < r.createTime <= now
    && (r.payTime != 0 ==> r.cardID.Some? && r.createTime <= r.payTime <= now)
    && (r.cancelTime != 0 ==> r.createTime <= r.cancelTime <= now && r.payTime <= r.cancelTime)
    && (if r.state.Created? then
          r.payTime == 0 && r.cancelTime == 0 && (r.payout <==> r.cardID.Some?) && (r.payout ==> !r.hold)
        else if r.state.CancelQueued? then r.payTime != 0 && r.cancelTime != 0
        else if r.state.Cancelled? then r.cancelTime != 0
        else Charged(r.state) && r.payTime != 0 && r.cancelTime == 0)
    && (r.state.Held? ==> r.hold)
    && (r.state.Paid? ==> !r.hold)
  }

  predicate Walks(w: World, now: int) {
    forall id :: id in w.receipts ==> OnWalk(w.receipts[id], now)
  }

  /** A receipt settled by transactions.complete is a payout that is paid, or was and is being cancelled. */
  predicate Completions(w: World) {
    forall id :: id in w.completed ==>
      && id in w.receipts && w.receipts[id].payout && w.receipts[id].payTime != 0
      && (w.receipts[id].state.Paid? || w.receipts[id].state.CancelQueued? || w.receipts[id].state.Cancelled?)
  }

  /** No receipt in progress is without a step to come, and no step waits for a receipt not yet begun. */
  predicate Unstranded(w: World) {
    && (forall id :: id in w.receipts && w.receipts[id].state.InProgress() ==> id in w.pending)
    && (forall id :: id in w.pending ==> id in w.receipts && !w.receipts[id].state.Created?)
  }

  predicate Sound(w: World, now: int) {
    0 < now && w.attached && Shelved(w) && Carded(w) && Walks(w, now) && Completions(w) && Unstranded(w)
  }

  /** A stand with cards on file and no receipt yet, and a runner attached to its scheduler. */
  predicate Opening(w: World) {
    && w.receipts == map[] && w.order == [] && w.pending == multiset{} && w.completed == {} && w.attached
    && Carded(w)
  }

  // ---------- every step keeps it ----------

  /** Changes to cards that leave their identity alone. */
  predicate SameCards(w: World, w': World) {
    && w'.cards.Keys == w.cards.Keys && w'.tokens == w.tokens && w'.lastCard == w.lastCard
    && forall c :: c in w.cards ==>
         && w'.cards[c].id == w.cards[c].id
         && w'.cards[c].token == w.cards[c].token
         && w'.cards[c].number == w.cards[c].number
         && w'.cards[c].frozen == w.cards[c].frozen
  }

  /** One stored receipt is replaced; everything a receipt does not touch is as it was. */
  predicate Replaced(w: World, w': World, r: ReceiptRow) {
    && r.id in w.receipts && w'.receipts == w.receipts[r.id := r] && w'.order == w.order
    && w'.attached == w.attached && SameCards(w, w')
  }

  lemma ReplacedShelved(w: World, w': World, r: ReceiptRow)
    requires Shelved(w) && Replaced(w, w', r)
    ensures Shelved(w')
  {
  }

  lemma ReplacedCarded(w: World, w': World, r: ReceiptRow)
    requires Carded(w) && Replaced(w, w', r)
    requires r.cardID.Some? ==> r.cardID.value in w.cards
    ensures Carded(w')
  {
  }

  lemma ReplacedCompletions(w: World, w': World, r: ReceiptRow)
    requires Completions(w) && Replaced(w, w', r)
    requires w'.completed == w.completed || w'.completed == w.completed + {r.id}
    requires r.id in w'.completed ==>
      r.payout && r.payTime != 0 && (r.state.Paid? || r.state.CancelQueued? || r.state.Cancelled?)
    ensures Completions(w')
  {
  }

  /** The steps waiting for every other receipt are untouched. */
  ghost predicate SameQueue(w: World, w': World, id: string) {
    forall other :: other != id ==> w'.pending[other] == w.pending[other]
  }

  lemma ReplacedUnstranded(w: World, w': World, r: ReceiptRow)
    requires Unstranded(w) && Replaced(w, w', r) && SameQueue(w, w', r.id)
    requires r.state.InProgress() ==> r.id in w'.pending
    requires r.id in w'.pending ==> !r.state.Created?
    ensures Unstranded(w')
  {
    forall id | id in w'.pending ensures id in w'.receipts && !w'.receipts[id].state.Created? {
      if id != r.id {
        assert w.pending[id] == w'.pending[id];
      }
    }
    forall id | id in w'.receipts && w'.receipts[id].state.InProgress() ensures id in w'.pending {
      if id != r.id {
        assert w.pending[id] == w'.pending[id];
      }
    }
  }

  lemma ReplacedSound(w: World, w': World, r: ReceiptRow, now: int)
    requires Sound(w, now) && Replaced(w, w', r) && OnWalk(r, now) && SameQueue(w, w', r.id)
    requires r.cardID.Some? ==> r.cardID.value in w.cards
    requires w'.completed == w.completed || w'.completed == w.completed + {r.id}
    requires r.id in w'.completed ==>
      r.payout && r.payTime != 0 && (r.state.Paid? || r.state.CancelQueued? || r.state.Cancelled?)
    requires r.state.InProgress() ==> r.id in w'.pending
    requires r.id in w'.pending ==> !r.state.Created?
    ensures Sound(w', now)
  {
    ReplacedShelved(w, w', r);
    ReplacedCarded(w, w', r);
    ReplacedCompletions(w, w', r);
    ReplacedUnstranded(w, w', r);
  }

  /** What loading by token and by identifier finds. */
  lemma Loaded(w: World, token: string, id: string)
    requires Carded(w) && Shelved(w)
    ensures w.LoadCard(token).Ok? ==>
      var card := w.LoadCard(token).value; card.id in w.cards && w.cards[card.id] == card
    ensures w.LoadReceipt(id).Ok? ==> w.LoadReceipt(id).value.id == id
  {
    if w.LoadCard(token).Ok? {
      var c := w.tokens[token];
      assert w.cards[c].id == c;
    }
  }

  lemma MovedSameCards(w: World, w': World, card: CardRow, delta: int)
    requires card.id in w.cards && w.cards[card.id] == card
    requires w'.cards == w.cards[card.id := card.Moved(delta)] && w'.tokens == w.tokens && w'.lastCard == w.lastCard
    ensures SameCards(w, w')
  {
  }

  lemma LaterSound(w: World, now: int, later: int)
    requires Sound(w, now) && now <= later
    ensures Sound(w, later)
  {
  }

  /** A change of one card's own particulars. */
  lemma CardEditSound(w: World, c: int, card: CardRow, now: int)
    requires Sound(w, now) && c in w.cards
    requires card == w.cards[c].(verify := card.verify, verifyCode := card.verifyCode, removed := card.removed,
                                 verifyCodeSentAt := card.verifyCodeSentAt, verifyWaitMillis := card.verifyWaitMillis)
    ensures Sound(w.PutCard(card), now) && SameCards(w, w.PutCard(card))
  {
  }

  /** A card added under the next identifier and a new token. */
  lemma NewCardCarded(w: World, st: Settings, p: CardParams, token: string, now: int)
    requires Carded(w) && token != "" && token !in w.tokens && ByNumber(w.cards, p.number).None?
    requires p.number != "" && p.expire != ""
    ensures Carded(CardsCreate(w, st, p, token, now).0)
  {
  }

  /** A held card handed back keeps its identity, and its first token once it has one. */
  lemma HeldCardCarded(w: World, st: Settings, p: CardParams, token: string, now: int)
    requires Carded(w) && token != "" && token !in w.tokens && ByNumber(w.cards, p.number).Some?
    requires p.number != "" && p.expire != ""
    ensures Carded(CardsCreate(w, st, p, token, now).0)
  {
    var c := ByNumber(w.cards, p.number).value;
    var w' := CardsCreate(w, st, p, token, now).0;
    var card := w'.cards[c];
    assert card.id == c && card.number == w.cards[c].number;
    assert w'.tokens == w.tokens[card.token := c];
    assert card.token == if w.cards[c].token == "" then token else w.cards[c].token;
    assert w'.cards == w.cards[c := card];
    forall d | d in w'.cards && w'.cards[d].token != ""
      ensures w'.cards[d].token in w'.tokens && w'.tokens[w'.cards[d].token] == d
    {
      if d != c {
        assert w'.cards[d] == w.cards[d];
        assert w.tokens[w.cards[d].token] == d;
      }
    }
  }

  lemma CreateCardSound(w: World, st: Settings, p: CardParams, token: string, now: int)
    requires Sound(w, now) && token != "" && token !in w.tokens
    ensures Sound(CardsCreate(w, st, p, token, now).0, now)
  {
    var w' := CardsCreate(w, st, p, token, now).0;
    if p.number != "" && p.expire != "" {
      if ByNumber(w.cards, p.number).None? {
        NewCardCarded(w, st, p, token, now);
      } else {
        HeldCardCarded(w, st, p, token, now);
      }
    }
    StoresAside(w, w', now);
  }

  /** What receipts keep does not depend on the cards. */
  lemma StoresAside(w: World, w': World, now: int)
    requires Sound(w, now) && Carded(w')
    requires w'.receipts == w.receipts && w'.order == w.order && w'.pending == w.pending
    requires w'.completed == w.completed && w'.attached == w.attached
    ensures Sound(w', now)
  {
  }

  lemma AddShelved(w: World, r: ReceiptRow)
    requires Shelved(w) && r.id !in w.receipts && r.id != ""
    ensures Shelved(w.AddReceipt(r))
  {
    var w' := w.AddReceipt(r);
    assert r.id !in w.order;
    forall id | id in w'.receipts ensures id in w'.order {
      if id == r.id {
        assert w'.order[|w.order|] == id;
      }
    }
  }

  /** Adding a receipt under a new identifier. */
  lemma AddReceiptSound(w: World, r: ReceiptRow, now: int)
    requires Sound(w, now) && r.id !in w.receipts && r.id != "" && OnWalk(r, now) && r.state.Created?
    requires r.cardID.Some? ==> r.cardID.value in w.cards
    ensures Sound(w.AddReceipt(r), now)
  {
    hide Shelved, Carded, Unstranded, Walks, Completions;
    AddShelved(w, r);
    AddCarded(w, r);
    AddUnstranded(w, r);
    AddWalks(w, r, now);
  }

  lemma AddWalks(w: World, r: ReceiptRow, now: int)
    requires Walks(w, now) && Completions(w) && r.id !in w.receipts && OnWalk(r, now)
    ensures Walks(w.AddReceipt(r), now) && Completions(w.AddReceipt(r))
  {
    hide OnWalk;
  }

  lemma AddCarded(w: World, r: ReceiptRow)
    requires Carded(w) && (r.cardID.Some? ==> r.cardID.value in w.cards)
    ensures Carded(w.AddReceipt(r))
  {
  }

  lemma AddUnstranded(w: World, r: ReceiptRow)
    requires Unstranded(w) && r.id !in w.receipts && r.state.Created?
    ensures Unstranded(w.AddReceipt(r))
  {
    assert r.id !in w.pending;
  }

  lemma BooksSound(w: World, books: Merchant.Books, now: int)
    requires Sound(w, now)
    ensures Sound(w.(books := books), now)
  {
  }

  /** A successful pay replaces the receipt, moves the card, and queues one step. */
  lemma PayReplaces(w: World, st: Settings, id: string, token: string, hold: bool, txn: string, now: int,
                    books: Merchant.Books, answer: Result<()>)
    requires PayAnswered(w, st, id, token, hold, txn, now, books, answer).1.Ok?
    requires w.attached && w.receipts[id].id == id
    requires var card := w.LoadCard(token).value; card.id in w.cards && w.cards[card.id] == card
    ensures var (w', r) := PayAnswered(w, st, id, token, hold, txn, now, books, answer);
      var card := w.LoadCard(token).value;
      && answer.Ok? && w'.books == books && Replaced(w, w', r.value)
      && w'.completed == w.completed && w'.pending == w.pending + multiset{id}
      && w.receipts[id].state.Created? && r.value.state.Checking? && r.value.payTime == now
      && r.value == w.receipts[id].(cardID := Some(card.id), state := Checking, payTime := now, merchantTxn := txn,
                                    cardSystem := r.value.cardSystem, hold := r.value.hold, holdExpire := r.value.holdExpire)
      && w'.cards == w.cards[card.id := card.Moved(-r.value.amount)] && r.value.amount <= card.balance
  {
    var (w', r) := PayAnswered(w, st, id, token, hold, txn, now, books, answer);
    MovedSameCards(w, w', w.LoadCard(token).value, -w.receipts[id].amount);
  }

  /** A refused pay changes nothing but what the merchant did to its own books. */
  lemma PayRefused(w: World, st: Settings, id: string, token: string, hold: bool, txn: string, now: int,
                   books: Merchant.Books, answer: Result<()>)
    requires PayAnswered(w, st, id, token, hold, txn, now, books, answer).1.Err?
    ensures PayAnswered(w, st, id, token, hold, txn, now, books, answer).0 in {w, w.(books := books)}
  {
  }

  lemma PaySound(w: World, st: Settings, id: string, token: string, hold: bool, txn: string, now: int,
                 books: Merchant.Books, answer: Result<()>)
    requires Sound(w, now)
    ensures Sound(PayAnswered(w, st, id, token, hold, txn, now, books, answer).0, now)
  {
    var (w', r) := PayAnswered(w, st, id, token, hold, txn, now, books, answer);
    if r.Ok? {
      Loaded(w, token, id);
      PayReplaces(w, st, id, token, hold, txn, now, books, answer);
      assert OnWalk(w.receipts[id], now);
      ReplacedSound(w, w', r.value, now);
    } else {
      PayRefused(w, st, id, token, hold, txn, now, books, answer);
      BooksSound(w, w'.books, now);
    }
  }

  lemma ConfirmHoldSound(w: World, id: string, now: int)
    requires Sound(w, now)
    ensures Sound(ReceiptsConfirmHold(w, id, now).0, now)
  {
    var (w', r) := ReceiptsConfirmHold(w, id, now);
    if r.Ok? {
      assert OnWalk(w.receipts[id], now);
      ReplacedSound(w, w', r.value, now);
    }
  }

  lemma RefundedCards(w: World, r: ReceiptRow)
    requires forall c :: c in w.cards ==> w.cards[c].id == c
    ensures SameCards(w, Refunded(w, r)) && Refunded(w, r) == w.(cards := Refunded(w, r).cards)
    ensures Refunded(w, r).cards ==
            if r.payTime != 0 && r.cardID.Some? && r.cardID.value in w.cards
            then w.cards[r.cardID.value := w.cards[r.cardID.value].Moved(r.amount)] else w.cards
  {
    if r.payTime != 0 && r.cardID.Some? && r.cardID.value in w.cards {
      var card := w.cards[r.cardID.value];
      assert card.id == r.cardID.value;
      MovedSameCards(w, Refunded(w, r), card, r.amount);
    }
  }

  /** A cancellation that is not a repeat replaces the receipt, and refunds the card of one that was paid. */
  lemma CancelReplaces(w: World, id: string, now: int)
    requires ReceiptsCancel(w, id, now).1.Ok? && w.attached && w.receipts[id].id == id
    requires forall c :: c in w.cards ==> w.cards[c].id == c
    ensures var (w', r) := ReceiptsCancel(w, id, now); var was := w.receipts[id];
      if was.state.CancelQueued? || was.state.Cancelled? then w' == w
      else
        && Replaced(w, w', r.value) && w'.completed == w.completed && w'.books == w.books
        && r.value == was.(state := if was.state.Created? then Cancelled else CancelQueued, cancelTime := now)
        && (was.state.Created? || was.state.Paid? || was.state.Held? || was.state.InProgress())
        && w'.pending == (if was.state.Created? then w.pending else w.pending + multiset{id})
        && w'.cards == Refunded(w, r.value).cards
  {
    RefundedCards(w, ReceiptsCancel(w, id, now).1.value);
  }

  lemma CancelSound(w: World, id: string, now: int)
    requires Sound(w, now)
    ensures Sound(ReceiptsCancel(w, id, now).0, now)
  {
    var (w', r) := ReceiptsCancel(w, id, now);
    if r.Ok? {
      CancelReplaces(w, id, now);
      assert OnWalk(w.receipts[id], now);
      if w' != w {
        ReplacedSound(w, w', r.value, now);
      }
    }
  }

  /** A first successful complete replaces the receipt and credits its card. */
  lemma CompleteReplaces(w: World, id: string, token: string, amount: int, now: int, answer: Result<Merchant.Books>)
    requires CompleteAnswered(w, id, token, amount, now, answer).1.Ok? && w.receipts[id].id == id
    requires w.LoadCard(token).Ok? ==>
      var card := w.LoadCard(token).value; card.id in w.cards && w.cards[card.id] == card
    requires forall c :: c in w.cards ==> w.cards[c].id == c
    ensures var (w', r) := CompleteAnswered(w, id, token, amount, now, answer); var was := w.receipts[id];
      && was.payout && was.cardID.Some? && was.cardID.value in w.cards
      && if was.state.Paid? then w' == w
      else
        && Replaced(w, w', r.value) && w'.completed == w.completed + {id} && w'.pending == w.pending
        && was.state.Created? && amount == was.amount && r.value == was.(state := Paid, payTime := now)
        && w'.cards == w.cards[was.cardID.value := w.cards[was.cardID.value].Moved(was.amount)]
  {
    var (w', r) := CompleteAnswered(w, id, token, amount, now, answer);
    var c := w.receipts[id].cardID.value;
    assert c in w.cards && w.cards[c].id == c;
    if !w.receipts[id].state.Paid? {
      MovedSameCards(w, w', w.cards[w.receipts[id].cardID.value], w.receipts[id].amount);
    }
  }

  /** A payout is settled and its card credited. */
  lemma CompletedSound(w: World, w': World, r: ReceiptRow, now: int)
    requires Sound(w, now) && Replaced(w, w', r) && w'.completed == w.completed + {r.id} && w'.pending == w.pending
    requires var was := w.receipts[r.id]; was.payout && was.state.Created? && r == was.(state := Paid, payTime := now)
    ensures Sound(w', now)
  {
    assert OnWalk(w.receipts[r.id], now);
    assert r.id !in w.pending;
    ReplacedSound(w, w', r, now);
  }

  lemma CompleteSound(w: World, id: string, token: string, amount: int, now: int, answer: Result<Merchant.Books>)
    requires Sound(w, now)
    ensures Sound(CompleteAnswered(w, id, token, amount, now, answer).0, now)
  {
    var (w', r) := CompleteAnswered(w, id, token, amount, now, answer);
    if r.Ok? {
      Loaded(w, token, id);
      CompleteReplaces(w, id, token, amount, now, answer);
      hide CompleteAnswered;
      if !w.receipts[id].state.Paid? {
        CompletedSound(w, w', r.value, now);
      }
    }
  }

  /** The step schedules another. */
  predicate GoesOn(was: ReceiptRow, r: ReceiptRow) {
    was.NextState().Some? && !r.state.Terminal() && !r.state.Held?
  }

  /** A step takes one entry from the queue, and puts one back while the walk goes on. */
  lemma RunStepReplaces(w: World, id: string, now: int)
    requires id in w.pending && id in w.receipts && id != "" && w.receipts[id].id == id && w.attached
    ensures var w' := RunStep(w, id, now); var was := w.receipts[id]; var r := was.AfterAdvance(now);
      && w'.cards == w.cards && w'.books == w.books && w'.completed == w.completed
      && Replaced(w, w', r)
      && w'.pending == (if GoesOn(was, r) then w.pending else w.pending - multiset{id})
  {
    assert w.receipts == w.receipts[id := w.receipts[id]];
    assert w.pending - multiset{id} + multiset{id} == w.pending;
  }

  lemma AdvanceOnWalk(r: ReceiptRow, now: int)
    requires OnWalk(r, now) && !r.state.Created? && 0 < now
    ensures var r' := r.AfterAdvance(now);
      && OnWalk(r', now) && !r'.state.Created? && r'.cardID == r.cardID && r'.id == r.id
      && (r'.state.InProgress() <==> GoesOn(r, r'))
      && (r.state.Paid? || r.state.Cancelled? ==> r' == r)
      && r'.payTime == r.payTime && r'.payout == r.payout
      && (r'.state.Paid? || r'.state.Cancelled? <== r.state.Paid? || r.state.CancelQueued? || r.state.Cancelled?)
  {
  }

  lemma RunStepSound(w: World, id: string, now: int)
    requires Sound(w, now) && id in w.pending
    ensures Sound(RunStep(w, id, now), now)
  {
    RunStepReplaces(w, id, now);
    AdvanceOnWalk(w.receipts[id], now);
    ReplacedSound(w, RunStep(w, id, now), w.receipts[id].AfterAdvance(now), now);
  }

  lemma CardMethodsSound(w: World, st: Settings, token: string, code: string, now: int)
    requires Sound(w, now)
    ensures Sound(CardsGetVerifyCode(w, st, token, now).0, now)
    ensures Sound(CardsVerify(w, token, code, now).0, now)
    ensures Sound(CardsRemove(w, token).0, now)
  {
    if w.LoadCard(token).Ok? {
      var c := w.tokens[token];
      Loaded(w, token, "");
      var card := w.cards[c];
      if CardsGetVerifyCode(w, st, token, now).1.Ok? {
        CardEditSound(w, c, CardsGetVerifyCode(w, st, token, now).0.cards[c], now);
      }
      if CardsVerify(w, token, code, now).1.Ok? {
        CardEditSound(w, c, CardsVerify(w, token, code, now).0.cards[c], now);
      }
      CardEditSound(w, c, card.(removed := true), now);
    }
  }

  lemma CreateReceiptSound(w: World, st: Settings, amount: int, account: map<string, string>, hold: bool,
                           id: string, now: int)
    requires Sound(w, now) && id !in w.receipts && id != ""
    ensures Sound(ReceiptsCreate(w, st, amount, account, hold, id, now).0, now)
  {
    if 0 < amount {
      var books := Merchant.CheckPerform(w.books, st.merchant, account, amount).0;
      BooksSound(w, books, now);
      AddReceiptSound(w.(books := books), NewReceipt(id, amount, account, now).(hold := hold), now);
    }
  }

  lemma StepSound(w: World, st: Settings, call: Call, now: int)
    requires Sound(w, now) && Issued(w, call)
    ensures Sound(Step(w, st, call, now), now)
  {
    match call
    case CreateCard(p, token) => CreateCardSound(w, st, p, token, now);
    case GetVerifyCode(token) => CardMethodsSound(w, st, token, "", now);
    case Verify(token, code) => CardMethodsSound(w, st, token, code, now);
    case RemoveCard(token) => CardMethodsSound(w, st, token, "", now);
    case CreateReceipt(amount, account, hold, id) => CreateReceiptSound(w, st, amount, account, hold, id, now);
    case Pay(id, token, hold, draw) =>
      if w.LoadReceipt(id).Ok? {
        var receipt := w.receipts[id];
        var (books, answer) := Chain(w.books, st.merchant, receipt.amount, receipt.account, now, draw);
        PaySound(w, st, id, token, hold, draw.txn, now, books, answer);
      }
    case ConfirmHold(id) => ConfirmHoldSound(w, id, now);
    case Cancel(id) => CancelSound(w, id, now);
    case CreatePayout(amount, token, account, id, txn) =>
      var payout := Payout(txn, amount, account, now, 0);
      CreatePayoutSound(w, amount, token, account, id, txn, now,
                        if st.ledger then OpenPayout(w.books, payout) else Ok(w.books));
    case CompletePayout(id, token, amount) =>
      if w.LoadReceipt(id).Ok? {
        CompleteSound(w, id, token, amount, now, Settlement(w, st, w.receipts[id], now));
      }
    case Tick(id) => if id in w.pending { RunStepSound(w, id, now); }
    case ToMerchant(_) => BooksSound(w, Step(w, st, call, now).books, now);
  }

  /** An accepted payout adds its receipt, and so does one the register refused to open. */
  lemma CreatePayoutAdds(w: World, amount: int, token: string, account: map<string, string>,
                         id: string, txn: string, now: int, answer: Result<Merchant.Books>)
    ensures var w' := CreateAnswered(w, amount, token, account, id, txn, now, answer).0;
      || w' == w
      || (0 < amount && w.LoadCard(token).Ok? &&
          w' == w.AddReceipt(NewPayout(w.LoadCard(token).value, amount, account, id, txn, now)).(books := w'.books))
  {
  }

  lemma CreatePayoutSound(w: World, amount: int, token: string, account: map<string, string>,
                          id: string, txn: string, now: int, answer: Result<Merchant.Books>)
    requires Sound(w, now) && id !in w.receipts && id != ""
    ensures Sound(CreateAnswered(w, amount, token, account, id, txn, now, answer).0, now)
  {
    var w' := CreateAnswered(w, amount, token, account, id, txn, now, answer).0;
    CreatePayoutAdds(w, amount, token, account, id, txn, now, answer);
    if w' != w {
      Loaded(w, token, id);
      var r := NewPayout(w.LoadCard(token).value, amount, account, id, txn, now);
      AddReceiptSound(w, r, now);
      BooksSound(w.AddReceipt(r), w'.books, now);
    }
  }

  lemma {:induction false} RunSound(w: World, st: Settings, deliveries: seq<Delivery>)
    requires Opening(w) && Proper(w, st, deliveries)
    ensures Sound(Run(w, st, deliveries), Latest(deliveries)) && 1 <= Latest(deliveries)
  {
    hide Step;
    if deliveries != [] {
      var n := |deliveries| - 1;
      RunSound(w, st, deliveries[..n]);
      var before := Run(w, st, deliveries[..n]);
      LaterSound(before, Latest(deliveries[..n]), deliveries[n].now);
      StepSound(before, st, deliveries[n].call, deliveries[n].now);
    }
  }

  /** A continuation by one more delivery, and the state it finds. */
  lemma LastDelivery(w: World, st: Settings, past: seq<Delivery>, deliveries: seq<Delivery>)
    requires deliveries != [] && Opening(w) && Proper(w, st, past + deliveries)
    ensures var n := |deliveries| - 1; var before := Run(w, st, past + deliveries[..n]);
      && Proper(w, st, past + deliveries[..n]) && Sound(before, deliveries[n].now) && Issued(before, deliveries[n].call)
      && Run(w, st, past + deliveries) == Step(before, st, deliveries[n].call, deliveries[n].now)
  {
    hide Step, Sound, Opening;
    var n, all := |deliveries| - 1, past + deliveries;
    assert all[..|all| - 1] == past + deliveries[..n];
    RunSound(w, st, past + deliveries[..n]);
    LaterSound(Run(w, st, past + deliveries[..n]), Latest(past + deliveries[..n]), deliveries[n].now);
  }
}
