/**
  What the methods of the Subscribe API answer and write, told on the rows themselves: when
  each is refused and how, and exactly what an answered one stores; what a payment asked to be
  held does until it is confirmed; and what a repeated complete is answered, ever after.
 */
module SubscribeEffects {
  import opened Common
  import opened SubscribeModel
  import opened SubscribeProofs
  import Billing
  import Merchant = MerchantModel
  import MerchantEffects
  import MerchantProofs
  import SubscribeBooks
  import SubscribeCards
  import SubscribeWalk

  // ---------- cards ----------

  /** A card may be touched unless it was removed or is rigged to refuse everything. */
  lemma OperableExactly(card: CardRow)
    ensures card.Operable() ==
      if card.removed || card.outcome == Blocked || card.outcome == Expired then Err(CannotPerform)
      else if card.outcome == SystemError then Err(Transport)
      else Ok(())
  {
  }

  /** A card pays what it holds when it is on file, verified and not rigged; a system error is told apart. */
  lemma UsableExactly(card: CardRow, amount: int)
    ensures card.Usable(amount) ==
      if !card.removed && card.outcome == SystemError then Err(Transport)
      else if card.removed || card.outcome != Success || !card.verify || card.balance < amount then Err(CannotPerform)
      else Ok(())
  {
  }

  /** A first registration stores what was asked, with the stand's balance, unverified, under the next identifier. */
  lemma CreateCardExactly(w: World, st: Settings, p: CardParams, token: string, now: int)
    requires p.number != "" && p.expire != "" && token != ""
    requires forall c :: c in w.cards ==> w.cards[c].number != p.number
    ensures var (w', r) := CardsCreate(w, st, p, token, now);
      var card := CardRow(w.lastCard + 1, token, p.number,
                          if |p.expire| == 4 then [p.expire[0], p.expire[1], '/', p.expire[2], p.expire[3]] else p.expire,
                          p.save, false, "", st.cardBalance, false, Success, Api, true, false, p.account, p.customer,
                          0, 0, now);
      && r == Ok(card)
      && w' == w.(cards := w.cards[w.lastCard + 1 := card], tokens := w.tokens[token := w.lastCard + 1],
                  lastCard := w.lastCard + 1)
  {
    if |p.expire| == 4 {
      assert p.expire[..2] + "/" + p.expire[2..] == [p.expire[0], p.expire[1], '/', p.expire[2], p.expire[3]];
    }
  }

  /**
    A second registration of a number hands back the card held for it: with the token it had,
    if it had one, its new particulars where any are given, saved once asked to be, and its
    balance, code and standing as they were.
   */
  lemma HandBackExactly(w: World, st: Settings, p: CardParams, token: string, now: int, c: int)
    requires Carded(w) && p.number != "" && p.expire != "" && c in w.cards && w.cards[c].number == p.number
    ensures var (w', r) := CardsCreate(w, st, p, token, now);
      var held := w.cards[c];
      var card := held.(token := if held.token == "" then token else held.token, registeredAt := now,
                        recurrent := held.recurrent || p.save,
                        account := if p.account == map[] then held.account else p.account,
                        customer := if p.customer == "" then held.customer else p.customer);
      && r == Ok(card) && w' == w.(cards := w.cards[c := card], tokens := w.tokens[card.token := c])
  {
    assert ByNumber(w.cards, p.number) == Some(c);
  }

  lemma CreateCardRefused(w: World, st: Settings, p: CardParams, token: string, now: int)
    requires p.number == "" || p.expire == ""
    ensures CardsCreate(w, st, p, token, now) == (w, Err(InvalidRequest))
  {
  }

  /** What a token leads to: nothing for an empty or an unknown one. */
  lemma LoadCardExactly(w: World, token: string)
    ensures w.LoadCard(token) ==
      if token == "" then Err(InvalidRequest)
      else if token in w.tokens && w.tokens[token] in w.cards then Ok(w.cards[w.tokens[token]])
      else Err(CannotPerform)
  {
  }

  lemma LoadReceiptExactly(w: World, id: string)
    ensures w.LoadReceipt(id) ==
      if id == "" then Err(InvalidRequest) else if id in w.receipts then Ok(w.receipts[id]) else Err(TransactionNotFound)
  {
  }

  /** The code of a card whose expiry is written MM/YY: month, year, and the year again. */
  lemma CodeOfExpiry(card: CardRow, m: char, n: char, y: char, z: char)
    requires card.expire == [m, n, '/', y, z] || card.expire == [m, n, y, z]
    requires m != '/' && n != '/' && y != '/' && z != '/'
    ensures ExpiryCode(card.expire) == [m, n, y, z, y, z]
  {
    assert WithoutSlashes([z]) == [z] + WithoutSlashes("");
    Slashes(y, [z]);
    if card.expire == [m, n, '/', y, z] {
      assert card.expire[1..][1..][1..] == [y, z];
      assert WithoutSlashes(card.expire[1..][1..]) == [y, z];
      assert WithoutSlashes(card.expire[1..]) == [n] + [y, z];
      assert WithoutSlashes(card.expire) == [m, n, y, z];
    } else {
      assert card.expire[1..][1..] == [y, z];
      assert WithoutSlashes(card.expire[1..]) == [n] + [y, z];
      assert WithoutSlashes(card.expire) == [m, n, y, z];
    }
  }

  lemma Slashes(c: char, s: string)
    requires c != '/'
    ensures WithoutSlashes([c] + s) == [c] + WithoutSlashes(s)
  {
    assert ([c] + s)[1..] == s;
  }

  /**
    Asking for a code sets the one the card expects: the stand's own for a card the console
    put there, else the one its expiry spells, else the stand's; with the stand's window, or a
    minute where it names none.
   */
  lemma GetCodeExactly(w: World, st: Settings, token: string, now: int)
    ensures var (w', r) := CardsGetVerifyCode(w, st, token, now);
      if w.LoadCard(token).Err? then w' == w && r == Err(w.LoadCard(token).error)
      else
        var card := w.LoadCard(token).value;
        var code := if card.source == Console && st.verifyCode != "" then st.verifyCode
                    else if ExpiryCode(card.expire) != "" then ExpiryCode(card.expire) else st.verifyCode;
        var wait := if 0 < st.verifyWaitMillis then st.verifyWaitMillis else 60000;
        if card.Operable().Err? then w' == w && r == Err(card.Operable().error)
        else if !card.smsEnabled then w' == w && r == Err(CannotPerform)
        else
          && r == Ok(wait)
          && w' == w.(cards := w.cards[card.id := card.(verifyCode := code, verifyCodeSentAt := now,
                                                        verifyWaitMillis := wait)])
  {
    hide ExpiryCode;
  }

  /** A code confirms the card it was sent to, in its window, and is spent; the shared one does too. */
  lemma VerifyExactly(w: World, token: string, code: string, now: int)
    ensures var (w', r) := CardsVerify(w, token, code, now);
      if w.LoadCard(token).Err? then w' == w && r == Err(w.LoadCard(token).error)
      else
        var card := w.LoadCard(token).value;
        if card.Operable().Err? then w' == w && r == Err(card.Operable().error)
        else if card.outcome == VerifyFailed || card.verifyCode == "" || (code != card.verifyCode && code != "666666")
          || (0 < card.verifyWaitMillis && card.verifyWaitMillis < now - card.verifyCodeSentAt) then
          w' == w && r == Err(CannotPerform)
        else
          && r == Ok(card.(verify := true, verifyCode := ""))
          && w' == w.(cards := w.cards[card.id := card.(verify := true, verifyCode := "")])
  {
  }

  lemma RemoveExactly(w: World, token: string)
    ensures var (w', r) := CardsRemove(w, token);
      if w.LoadCard(token).Err? then w' == w && r == Err(w.LoadCard(token).error)
      else
        && r == Ok(())
        && w' == w.(cards := w.cards[w.LoadCard(token).value.id := w.LoadCard(token).value.(removed := true)])
  {
  }

  // ---------- receipts ----------

  /** What a frozen card never does: hold another figure. */
  function Holding(card: CardRow, balance: int): CardRow { if card.frozen then card else card.(balance := balance) }

  /**
    A receipt is made exactly when the amount is positive and the merchant agrees; it stores
    the amount, the account and the hold that were asked for, as created now and with no card.
   */
  lemma CreateReceiptExactly(w: World, st: Settings, amount: int, account: map<string, string>, hold: bool, id: string,
                             now: int)
    ensures var (w', r) := ReceiptsCreate(w, st, amount, account, hold, id, now);
      var (books, allowed) := Merchant.CheckPerform(w.books, st.merchant, account, amount);
      var receipt := ReceiptRow(id, amount, Created, false, hold, 0, None, account, None, now, 0, 0, "");
      if amount <= 0 then w' == w && r == Err(InvalidAmount)
      else if allowed.Err? then w' == w.(books := books) && r == Err(allowed.error)
      else
        && r == Ok(receipt)
        && w' == w.(books := books, receipts := w.receipts[id := receipt], order := w.order + [id])
  {
    hide Merchant.CheckPerform;
  }

  /** The receipt as a payment leaves it. */
  function PaidWith(was: ReceiptRow, card: CardRow, hold: bool, txn: string, window: int, now: int): ReceiptRow {
    ReceiptRow(was.id, was.amount, Checking, was.payout, hold || was.hold,
               if hold || was.hold then now + window else was.holdExpire,
               Some(if "9860" <= card.number then Humo else Uzcard), was.account, Some(card.id),
               was.createTime, now, was.cancelTime, txn)
  }

  /**
    A pay is refused for the receipt, the card, the receipt's state or the merchant, in that
    order and with that one's error.  Answered, it takes the amount off the card, keeps the
    card, the time and the transaction on the receipt, holds it exactly when this call or the
    one that made it asked for that, until the window has passed, and queues one step.
   */
  lemma PayExactly(w: World, st: Settings, id: string, token: string, hold: bool, draw: PayDraw, now: int)
    requires Shelved(w) && Carded(w)
    ensures var (w', r) := ReceiptsPay(w, st, id, token, hold, draw, now);
      if w.LoadReceipt(id).Err? then w' == w && r == Err(w.LoadReceipt(id).error)
      else if w.LoadCard(token).Err? then w' == w && r == Err(w.LoadCard(token).error)
      else
        var was, card := w.receipts[id], w.LoadCard(token).value;
        var (books, answer) := Chain(w.books, st.merchant, was.amount, was.account, now, draw);
        var paid := PaidWith(was, card, hold, draw.txn, st.holdWindowMillis, now);
        if card.Usable(was.amount).Err? then w' == w && r == Err(card.Usable(was.amount).error)
        else if was.state != Created then w' == w && r == Err(CannotPerform)
        else if answer.Err? then w' == w.(books := books) && r == Err(answer.error)
        else
          && r == Ok(paid)
          && w' == w.(books := books, receipts := w.receipts[id := paid],
                      cards := w.cards[card.id := Holding(card, card.balance - was.amount)],
                      pending := if w.attached then w.pending + multiset{id} else w.pending)
  {
    if w.LoadReceipt(id).Ok? {
      var (books, answer) := Chain(w.books, st.merchant, w.receipts[id].amount, w.receipts[id].account, now, draw);
      hide Chain, Shelved, Carded, CardRow.Usable;
      PayAnsweredExactly(w, st, id, token, hold, draw.txn, now, books, answer);
    }
  }

  lemma PayAnsweredExactly(w: World, st: Settings, id: string, token: string, hold: bool, txn: string, now: int,
                           books: Merchant.Books, answer: Result<()>)
    requires Shelved(w) && Carded(w) && w.LoadReceipt(id).Ok?
    ensures var (w', r) := PayAnswered(w, st, id, token, hold, txn, now, books, answer);
      if w.LoadCard(token).Err? then w' == w && r == Err(w.LoadCard(token).error)
      else
        var was, card := w.receipts[id], w.LoadCard(token).value;
        var paid := PaidWith(was, card, hold, txn, st.holdWindowMillis, now);
        if card.Usable(was.amount).Err? then w' == w && r == Err(card.Usable(was.amount).error)
        else if was.state != Created then w' == w && r == Err(CannotPerform)
        else if answer.Err? then w' == w.(books := books) && r == Err(answer.error)
        else
          && r == Ok(paid)
          && w' == w.(books := books, receipts := w.receipts[id := paid],
                      cards := w.cards[card.id := Holding(card, card.balance - was.amount)],
                      pending := if w.attached then w.pending + multiset{id} else w.pending)
  {
    assert w.receipts[id].id == id;
    hide Shelved, Carded, CardRow.Usable;
  }

  /** The merchant is checked, then asked to create, then to perform, and the first refusal is the answer. */
  lemma ChainAnswers(b: Merchant.Books, st: Merchant.Settings, amount: int, account: map<string, string>, time: int,
                     draw: PayDraw)
    ensures var p := Merchant.CreateParams(draw.txn, time, amount, account);
      var (b1, checked) := Merchant.CheckPerform(b, st, account, amount);
      var (b2, created) := Merchant.Create(b1, st, p, draw.createNow);
      var (b3, performed) := Merchant.Perform(b2, st, draw.txn, draw.performNow);
      Chain(b, st, amount, account, time, draw) ==
        if checked.Err? then (b1, Err(checked.error))
        else if created.Err? then (b2, Err(created.error))
        else if performed.Err? then (b3, Err(performed.error))
        else (b3, Ok(()))
  {
    hide Merchant.CheckPerform, Merchant.Create, Merchant.Perform;
  }

  /** A hold is confirmed exactly while it is held, and then is paid, now. */
  lemma ConfirmExactly(w: World, id: string, now: int)
    requires Shelved(w)
    ensures var (w', r) := ReceiptsConfirmHold(w, id, now);
      if w.LoadReceipt(id).Err? then w' == w && r == Err(w.LoadReceipt(id).error)
      else if w.receipts[id].state != Held then w' == w && r == Err(CannotPerform)
      else
        var paid := w.receipts[id].(state := Paid, payTime := now, hold := false);
        r == Ok(paid) && w' == w.(receipts := w.receipts[id := paid])
  {
  }

  /**
    A cancel of a receipt that was never charged ends it; of one that was, it gives the amount
    back, and queues the end of it; of one cancelled before, it answers what is stored and
    changes nothing.
   */
  lemma CancelExactly(w: World, id: string, now: int)
    requires Shelved(w) && Carded(w) && Walks(w, now) && id != "" && id in w.receipts
    ensures var (w', r) := ReceiptsCancel(w, id, now); var was := w.receipts[id];
      if was.state == Cancelled || was.state == CancelQueued then w' == w && r == Ok(was)
      else if was.state == Created then
        var ended := was.(state := Cancelled, cancelTime := now);
        r == Ok(ended) && w' == w.(receipts := w.receipts[id := ended])
      else
        var queued, c := was.(state := CancelQueued, cancelTime := now), was.cardID.value;
        && r == Ok(queued) && was.cardID.Some? && c in w.cards
        && w' == w.(receipts := w.receipts[id := queued],
                    cards := w.cards[c := Holding(w.cards[c], w.cards[c].balance + was.amount)],
                    pending := if w.attached then w.pending + multiset{id} else w.pending)
  {
    assert OnWalk(w.receipts[id], now) && w.receipts[id].id == id;
    if Charged(w.receipts[id].state) {
      var c := w.receipts[id].cardID.value;
      assert w.cards[c].id == c;
    }
  }

  lemma CancelRefused(w: World, id: string, now: int)
    requires w.LoadReceipt(id).Err?
    ensures ReceiptsCancel(w, id, now) == (w, Err(w.LoadReceipt(id).error))
  {
  }

  /** Where one step takes a receipt: through the payment to paid, or to held; from a queued cancel to cancelled. */
  function Next(s: ReceiptState, hold: bool): ReceiptState {
    if s == Created then Checking
    else if s == Checking then Withdrawn
    else if s == Withdrawn then Closing
    else if s == Closing && hold then Held
    else if s == Closing then Paid
    else if s == CancelQueued then Cancelled
    else s
  }

  /**
    A queued step runs once, moves the receipt one state on, stamps only the end of a
    cancellation, and queues the next while there is one.
   */
  lemma TickExactly(w: World, id: string, now: int)
    requires Shelved(w) && w.attached && id in w.pending && id in w.receipts
    ensures var w' := RunStep(w, id, now); var was := w.receipts[id]; var s := Next(was.state, was.hold);
      && AdvanceReceipt(w, id, now).1 == Ok(())
      && w' == w.(receipts := w.receipts[id := was.(state := s,
                                                    cancelTime := if was.state == CancelQueued then now else was.cancelTime)],
                  pending := if was.state == Created || was.state == Checking || was.state == Withdrawn
                             then w.pending else w.pending - multiset{id})
  {
    assert w.pending - multiset{id} + multiset{id} == w.pending;
    assert w.receipts == w.receipts[id := w.receipts[id]];
  }

  /**
    A payment that asked to be held, or whose receipt did, is not paid over any later run
    unless a confirmation of it was delivered.
   */
  lemma HeldPayWaits(w: World, st: Settings, past: seq<Delivery>, deliveries: seq<Delivery>,
                     id: string, token: string, hold: bool, draw: PayDraw)
    requires Opening(w) && Proper(w, st, past + deliveries)
    requires past != [] && past[|past| - 1].call == Pay(id, token, hold, draw)
    requires var before := Run(w, st, past[..|past| - 1]);
      && ReceiptsPay(before, st, id, token, hold, draw, past[|past| - 1].now).1.Ok?
      && id in before.receipts && (hold || before.receipts[id].hold)
    ensures var w' := Run(w, st, past + deliveries);
      && id in w'.receipts
      && (w'.receipts[id].state != Paid || exists k :: 0 <= k < |deliveries| && deliveries[k].call == ConfirmHold(id))
  {
    var n := |past| - 1;
    var before := Run(w, st, past[..n]);
    ProperPrefix(w, st, past, deliveries);
    assert past[..n] + past[n..] == past;
    ProperPrefix(w, st, past[..n], past[n..]);
    RunSound(w, st, past[..n]);
    PayMarks(before, Latest(past[..n]), st, id, token, hold, draw, past[n].now);
    LastStep(w, st, past);
    hide ReceiptsPay, Chain, Opening, Proper, Step, Run, Sound;
    SubscribeWalk.HeldUntilConfirmed(w, st, past, deliveries, id);
  }

  lemma LastStep(w: World, st: Settings, past: seq<Delivery>)
    requires past != []
    ensures var n := |past| - 1; Run(w, st, past) == Step(Run(w, st, past[..n]), st, past[n].call, past[n].now)
  {
  }

  lemma SoundTables(w: World, since: int)
    requires Sound(w, since)
    ensures Shelved(w) && Carded(w)
  {
    hide Shelved, Carded;
  }

  lemma PayMarks(w: World, since: int, st: Settings, id: string, token: string, hold: bool, draw: PayDraw, now: int)
    requires Sound(w, since) && ReceiptsPay(w, st, id, token, hold, draw, now).1.Ok?
    requires id in w.receipts && (hold || w.receipts[id].hold)
    ensures var w' := Step(w, st, Pay(id, token, hold, draw), now);
      id in w'.receipts && SubscribeWalk.Unconfirmed(w'.receipts[id])
  {
    hide ReceiptsPay, Chain, Sound, CardRow.Usable, Step, Shelved, Carded;
    SoundTables(w, since);
    PayStep(w, st, id, token, hold, draw, now);
    PayExactly(w, st, id, token, hold, draw, now);
  }

  lemma PayStep(w: World, st: Settings, id: string, token: string, hold: bool, draw: PayDraw, now: int)
    ensures Step(w, st, Pay(id, token, hold, draw), now) == ReceiptsPay(w, st, id, token, hold, draw, now).0
  {
    hide ReceiptsPay;
  }

  lemma CompleteStep(w: World, st: Settings, id: string, token: string, amount: int, now: int)
    ensures Step(w, st, CompletePayout(id, token, amount), now) == TransactionsComplete(w, st, id, token, amount, now).0
  {
    hide TransactionsComplete;
  }

  lemma {:induction false} ProperPrefix(w: World, st: Settings, past: seq<Delivery>, deliveries: seq<Delivery>)
    requires Proper(w, st, past + deliveries)
    ensures Proper(w, st, past)
  {
    hide Run;
    if deliveries == [] {
      assert past + deliveries == past;
    } else {
      var n := |deliveries| - 1;
      assert (past + deliveries)[..|past + deliveries| - 1] == past + deliveries[..n];
      ProperPrefix(w, st, past, deliveries[..n]);
    }
  }

  // ---------- payouts ----------

  /** A payout's receipt is stored before the register is asked, as a waiting payout to that card. */
  lemma CreatePayoutExactly(w: World, st: Settings, amount: int, token: string, account: map<string, string>,
                            id: string, txn: string, now: int)
    ensures var (w', r) := TransactionsCreate(w, st, amount, token, account, id, txn, now);
      if amount <= 0 then w' == w && r == Err(InvalidAmount)
      else if w.LoadCard(token).Err? then w' == w && r == Err(w.LoadCard(token).error)
      else
        var card := w.LoadCard(token).value;
        var receipt := ReceiptRow(id, amount, Created, true, false, 0, Some(if "9860" <= card.number then Humo else Uzcard),
                                  account, Some(card.id), now, 0, 0, txn);
        var opening := OpenPayout(w.books, Payout(txn, amount, account, now, 0));
        var stored := w.(receipts := w.receipts[id := receipt], order := w.order + [id]);
        if card.Operable().Err? then w' == w && r == Err(card.Operable().error)
        else if !st.ledger then w' == stored && r == Ok(receipt)
        else if opening.Err? then w' == stored && r == Err(opening.error)
        else w' == stored.(books := opening.value) && r == Ok(receipt)
  {
    hide OpenPayout, CardRow.Operable;
  }

  /** Opening a payout adds its row, created, once; a stopped register refuses, and so does a stand without one. */
  lemma OpenExactly(b: Merchant.Books, p: Payout)
    ensures OpenPayout(b, p) ==
      if b.accounts == [] then Err(NotFound)
      else if b.accounts[0].blocked then Err(CannotPerform)
      else if exists i :: 0 <= i < |b.txs| && b.txs[i].paymeID == p.txn then Ok(b)
      else
        Ok(b.(txs := b.txs + [Merchant.Tx(b.nextTx, p.txn, 0, b.accounts[0].id, p.account, p.amount,
                                          Merchant.State.Created, None, p.createTime, p.createTime, 0, 0)],
              nextTx := b.nextTx + 1))
  {
    var i := Merchant.TxIndex(b.txs, p.txn);
    assert i < |b.txs| ==> b.txs[i].paymeID == p.txn;
  }

  /**
    Settling is refused for want of a register, of a kind, or of funds, and on a stopped one.
    Answered, it moves the register by the amount the way its kind goes, with one event that
    names the row, which it marks performed, or adds.
   */
  lemma SettleExactly(b: Merchant.Books, kind: Billing.Kind, p: Payout)
    ensures var r := SettlePayout(b, kind, p); var i := Merchant.TxIndex(b.txs, p.txn);
      if b.accounts == [] then r == Err(NotFound)
      else if kind.Unknown? then r == Err(UnknownKind)
      else if b.accounts[0].blocked || (kind != Billing.Topup && b.accounts[0].balance < p.amount) then
        r == Err(CannotPerform)
      else
        var was, balance := b.accounts[0], MerchantEffects.After(kind, b.accounts[0].balance, p.amount);
        var number := if i < |b.txs| then b.txs[i].id else b.nextTx;
        && r.Ok?
        && r.value.accounts == b.accounts[0 := was.(balance := balance)]
        && r.value.moves == b.moves +
             [Billing.BalanceEvent(was.id, Billing.Payment, balance - was.balance, was.balance, balance, Some(number))]
        && r.value.txs ==
             (if i < |b.txs| then b.txs[i := b.txs[i].(state := Merchant.State.Performed, performTime := p.payTime)]
              else b.txs + [Merchant.Tx(number, p.txn, 0, was.id, p.account, p.amount, Merchant.State.Performed, None,
                                        p.createTime, p.createTime, p.payTime, 0)])
        && r.value == b.(accounts := r.value.accounts, moves := r.value.moves, txs := r.value.txs,
                         nextTx := if i < |b.txs| then b.nextTx else b.nextTx + 1)
  {
  }

  /** The token is empty or leads to the payout's own card, which is on file. */
  predicate OwnCard(w: World, r: ReceiptRow, token: string) {
    && r.cardID.Some?
    && if token == "" then r.cardID.value in w.cards
       else token in w.tokens && w.tokens[token] in w.cards && w.cards[w.tokens[token]].id == r.cardID.value
  }

  /** A complete of what is no payout, or to another card than its own, is refused and changes nothing, paid or not. */
  lemma CompleteRefused(w: World, st: Settings, id: string, token: string, amount: int, now: int)
    ensures w.LoadReceipt(id).Err? ==>
      TransactionsComplete(w, st, id, token, amount, now) == (w, Err(w.LoadReceipt(id).error))
    ensures w.LoadReceipt(id).Ok? && !(w.receipts[id].payout && OwnCard(w, w.receipts[id], token)) ==>
      TransactionsComplete(w, st, id, token, amount, now) == (w, Err(CannotPerform))
  {
    hide SettlePayout;
  }

  /**
    A complete of a waiting payout is refused for another amount than its own and for what the
    register says; answered, it is paid now, its card is credited, and the register settled.
   */
  lemma CompleteExactly(w: World, st: Settings, id: string, token: string, amount: int, now: int)
    requires Shelved(w) && Carded(w) && id in w.receipts && w.receipts[id].payout && OwnCard(w, w.receipts[id], token)
    requires w.receipts[id].state != Paid
    ensures var (w', r) := TransactionsComplete(w, st, id, token, amount, now);
      var was := w.receipts[id]; var c := was.cardID.value;
      var settled := SettlePayout(w.books, st.merchant.registerKind,
                                  Payout(was.merchantTxn, was.amount, was.account, was.createTime, now));
      var paid := was.(state := Paid, payTime := now);
      if was.state != Created then w' == w && r == Err(CannotPerform)
      else if amount != was.amount then w' == w && r == Err(InvalidAmount)
      else if st.ledger && settled.Err? then w' == w && r == Err(settled.error)
      else
        && r == Ok(paid) && c in w.cards
        && w' == w.(books := if st.ledger then settled.value else w.books, completed := w.completed + {id},
                    receipts := w.receipts[id := paid],
                    cards := w.cards[c := Holding(w.cards[c], w.cards[c].balance + was.amount)])
  {
    assert w.receipts[id].id == id && id != "";
    Loaded(w, token, id);
    assert w.cards[w.receipts[id].cardID.value].id == w.receipts[id].cardID.value;
    hide SettlePayout, Shelved, Carded;
  }

  /**
    A complete of a payout that is paid, retried for want of its answer, is answered as it
    stands, whatever amount it names, and changes nothing.
   */
  lemma RepeatedComplete(w: World, st: Settings, id: string, token: string, amount: int, now: int)
    requires id != "" && id in w.receipts && w.receipts[id].state == Paid
    ensures TransactionsComplete(w, st, id, token, amount, now) ==
      (w, if w.receipts[id].payout && OwnCard(w, w.receipts[id], token) then Ok(w.receipts[id]) else Err(CannotPerform))
  {
    hide SettlePayout;
  }

  /** A token leads to the same card for good. */
  predicate SameTokens(w: World, w': World) {
    && (forall token :: token in w.tokens ==> token in w'.tokens && w'.tokens[token] == w.tokens[token])
    && (forall c :: c in w.cards ==> c in w'.cards && w'.cards[c].id == w.cards[c].id)
  }

  /** What being on file by one's token comes to. */
  lemma TokensInCards(w: World)
    requires Carded(w)
    ensures forall t :: t in w.tokens ==> w.tokens[t] in w.cards
    ensures forall c :: c in w.cards ==> w.cards[c].id == c && c <= w.lastCard
    ensures forall c :: c in w.cards && w.cards[c].token != "" ==>
      w.cards[c].token in w.tokens && w.tokens[w.cards[c].token] == c
  {
  }

  lemma CreateCardTokens(w: World, st: Settings, p: CardParams, token: string, now: int)
    requires Carded(w) && token != "" && token !in w.tokens
    ensures SameTokens(w, CardsCreate(w, st, p, token, now).0)
  {
    hide CardsCreate, ByNumber;
    TokensInCards(w);
    if p.number == "" || p.expire == "" {
      CreateCardRefused(w, st, p, token, now);
    } else if c :| c in w.cards && w.cards[c].number == p.number {
      HandBackExactly(w, st, p, token, now, c);
      TokenAdded(w, CardsCreate(w, st, p, token, now).0, c, CardsCreate(w, st, p, token, now).1.value.token);
    } else {
      CreateCardExactly(w, st, p, token, now);
      TokenAdded(w, CardsCreate(w, st, p, token, now).0, w.lastCard + 1, token);
    }
  }

  lemma TokenAdded(w: World, w': World, c: int, token: string)
    requires Carded(w) && c in w'.cards && w'.cards[c].id == c && (token in w.tokens ==> w.tokens[token] == c)
    requires w'.cards == w.cards[c := w'.cards[c]] && w'.tokens == w.tokens[token := c]
    ensures SameTokens(w, w')
  {
    TokensInCards(w);
    hide Carded;
  }

  lemma CardMethodTokens(w: World, st: Settings, token: string, code: string, now: int)
    ensures CardsGetVerifyCode(w, st, token, now).0.tokens == w.tokens
    ensures CardsVerify(w, token, code, now).0.tokens == w.tokens
    ensures CardsRemove(w, token).0.tokens == w.tokens
  {
    hide ExpiryCode, CardRow.Operable, World.LoadCard;
  }

  lemma PayTokens(w: World, st: Settings, id: string, token: string, hold: bool, draw: PayDraw, now: int)
    ensures ReceiptsPay(w, st, id, token, hold, draw, now).0.tokens == w.tokens
  {
    hide Chain, CardRow.Usable;
  }

  lemma PayoutTokens(w: World, st: Settings, id: string, token: string, amount: int, account: map<string, string>,
                     txn: string, now: int)
    ensures TransactionsComplete(w, st, id, token, amount, now).0.tokens == w.tokens
    ensures TransactionsCreate(w, st, amount, token, account, id, txn, now).0.tokens == w.tokens
  {
    hide SettlePayout, OpenPayout, CardRow.Operable;
  }

  lemma ReceiptTokens(w: World, st: Settings, amount: int, account: map<string, string>, hold: bool, id: string, now: int)
    ensures ReceiptsCreate(w, st, amount, account, hold, id, now).0.tokens == w.tokens
    ensures ReceiptsConfirmHold(w, id, now).0.tokens == w.tokens
  {
    hide Merchant.CheckPerform, World.LoadReceipt;
  }

  lemma TickTokens(w: World, id: string, now: int)
    requires id in w.pending
    ensures RunStep(w, id, now).tokens == w.tokens
  {
    hide ReceiptRow.NextState, ReceiptRow.AfterAdvance, World.LoadReceipt;
  }

  lemma CancelTokens(w: World, id: string, now: int)
    ensures ReceiptsCancel(w, id, now).0.tokens == w.tokens
  {
  }

  /** Every other call leaves the tokens as they are. */
  lemma OtherTokens(w: World, st: Settings, call: Call, now: int)
    requires !call.CreateCard?
    ensures Step(w, st, call, now).tokens == w.tokens
  {
    hide CardsGetVerifyCode, CardsVerify, CardsRemove, ReceiptsPay, ReceiptsCreate, ReceiptsConfirmHold, ReceiptsCancel,
         RunStep, TransactionsCreate, TransactionsComplete;
    match call
    case GetVerifyCode(token) => CardMethodTokens(w, st, token, "", now);
    case Verify(token, code) => CardMethodTokens(w, st, token, code, now);
    case RemoveCard(token) => CardMethodTokens(w, st, token, "", now);
    case CreateReceipt(amount, account, hold, id) => ReceiptTokens(w, st, amount, account, hold, id, now);
    case Pay(id, token, hold, draw) => PayTokens(w, st, id, token, hold, draw, now);
    case ConfirmHold(id) => ReceiptTokens(w, st, 0, map[], false, id, now);
    case Cancel(id) => CancelTokens(w, id, now);
    case CreatePayout(amount, token, account, id, txn) => PayoutTokens(w, st, id, token, amount, account, txn, now);
    case CompletePayout(id, token, amount) => PayoutTokens(w, st, id, token, amount, map[], "", now);
    case Tick(id) =>
      if id in w.pending {
        TickTokens(w, id, now);
      }
    case ToMerchant(_) =>
  }

  lemma StepTokens(w: World, st: Settings, call: Call, now: int)
    requires Sound(w, now) && Issued(w, call)
    ensures SameTokens(w, Step(w, st, call, now))
  {
    if call.CreateCard? {
      CreateCardTokens(w, st, call.p, call.token, now);
    } else {
      OtherTokens(w, st, call, now);
      hide Step;
      forall c | c in w.cards ensures SubscribeCards.SameCard(w, Step(w, st, call, now), c) {
        SubscribeCards.StepSame(w, st, call, now, c);
      }
    }
  }

  /** The payout is as it was when it was paid, under one of its own card's tokens, or it was cancelled since. */
  predicate StillPaid(w: World, id: string, token: string, r: ReceiptRow) {
    && id in w.receipts
    && (|| w.receipts[id].state == Cancelled || w.receipts[id].state == CancelQueued
        || (w.receipts[id] == r && OwnCard(w, r, token)))
  }

  lemma {:induction false} PaidPayoutStays(w: World, st: Settings, past: seq<Delivery>, deliveries: seq<Delivery>,
                                           id: string, token: string, r: ReceiptRow)
    requires Opening(w) && Proper(w, st, past + deliveries)
    requires StillPaid(Run(w, st, past), id, token, r) && r.state == Paid
    ensures StillPaid(Run(w, st, past + deliveries), id, token, r)
  {
    hide Step, Run, Opening, Sound, StillPaid, Issued, Proper;
    if deliveries == [] {
      assert past + deliveries == past;
    } else {
      var n := |deliveries| - 1;
      LastDelivery(w, st, past, deliveries);
      PaidPayoutStays(w, st, past, deliveries[..n], id, token, r);
      PaidPayoutStep(Run(w, st, past + deliveries[..n]), st, deliveries[n].call, deliveries[n].now, id, token, r);
    }
  }

  lemma PaidPayoutStep(w: World, st: Settings, call: Call, now: int, id: string, token: string, r: ReceiptRow)
    requires Sound(w, now) && Issued(w, call) && StillPaid(w, id, token, r) && r.state == Paid
    ensures StillPaid(Step(w, st, call, now), id, token, r)
  {
    hide Step, Issued;
    SubscribeWalk.StepAllowed(w, st, call, now, id);
    StepTokens(w, st, call, now);
    hide Sound, Shelved, Carded;
    var was, r' := w.receipts[id], Step(w, st, call, now).receipts[id];
    if OwnCard(w, r, token) {
      OwnCardStays(w, Step(w, st, call, now), r, token);
    }
    if r' != was {
      MovesOn(was, r', call, now);
    }
  }

  lemma OwnCardStays(w: World, w': World, r: ReceiptRow, token: string)
    requires SameTokens(w, w') && OwnCard(w, r, token)
    ensures OwnCard(w', r, token)
  {
    var c := if token == "" then r.cardID.value else w.tokens[token];
    assert c in w.cards;
    assert c in w'.cards && w'.cards[c].id == w.cards[c].id;
  }

  /** A paid receipt only goes to its cancellation, and one in that stays there. */
  lemma MovesOn(r: ReceiptRow, r': ReceiptRow, call: Call, now: int)
    requires SubscribeWalk.Allowed(r, r', call, now) && r' != r
    requires r.state == Paid || r.state == CancelQueued || r.state == Cancelled
    ensures r'.state == CancelQueued || r'.state == Cancelled
  {
  }

  /**
    Once a complete was answered, every retry with its token, whatever amount it names, gets
    that answer and changes nothing, over any run, while the payout stays paid.
   */
  lemma CompleteRepeats(w: World, st: Settings, past: seq<Delivery>, deliveries: seq<Delivery>, id: string, token: string,
                        amount: int, first: ReceiptRow, again: int, later: int)
    requires Opening(w) && Proper(w, st, past + deliveries)
    requires past != [] && past[|past| - 1].call == CompletePayout(id, token, amount)
    requires var n := |past| - 1;
      TransactionsComplete(Run(w, st, past[..n]), st, id, token, amount, past[n].now).1 == Ok(first)
    ensures var w' := Run(w, st, past + deliveries);
      && id in w'.receipts && first.state == Paid
      && (w'.receipts[id].state == Paid ==> TransactionsComplete(w', st, id, token, again, later) == (w', Ok(first)))
  {
    hide TransactionsComplete, Opening, Proper, Step, Run, OwnCard;
    ProperPrefix(w, st, past, deliveries);
    LastComplete(w, st, past, id, token, amount, first);
    PaidPayoutStays(w, st, past, deliveries, id, token, first);
    var w' := Run(w, st, past + deliveries);
    if w'.receipts[id].state == Paid {
      RepeatedComplete(w', st, id, token, again, later);
    }
  }

  /** A run that ends with an answered complete leaves what that complete left. */
  lemma LastComplete(w: World, st: Settings, past: seq<Delivery>, id: string, token: string, amount: int, first: ReceiptRow)
    requires Opening(w) && Proper(w, st, past)
    requires past != [] && past[|past| - 1].call == CompletePayout(id, token, amount)
    requires var n := |past| - 1;
      TransactionsComplete(Run(w, st, past[..n]), st, id, token, amount, past[n].now).1 == Ok(first)
    ensures var w' := Run(w, st, past);
      && id != "" && id in w'.receipts && w'.receipts[id] == first && first.payout && first.state == Paid
      && OwnCard(w', first, token)
  {
    var n := |past| - 1;
    hide TransactionsComplete, Opening, Proper, Step, Run, Sound, OwnCard;
    assert past[..n] + past[n..] == past;
    ProperPrefix(w, st, past[..n], past[n..]);
    RunSound(w, st, past[..n]);
    CompletedPayout(Run(w, st, past[..n]), Latest(past[..n]), st, id, token, amount, past[n].now);
    LastStep(w, st, past);
  }

  /** What an answered complete leaves: the payout paid, under the token of its own card, as answered. */
  lemma CompletedPayout(w: World, since: int, st: Settings, id: string, token: string, amount: int, now: int)
    requires Sound(w, since) && TransactionsComplete(w, st, id, token, amount, now).1.Ok?
    ensures var (w', r) := TransactionsComplete(w, st, id, token, amount, now);
      && id != "" && id in w'.receipts && r == Ok(w'.receipts[id]) && r.value.payout && r.value.state == Paid
      && OwnCard(w', r.value, token) && w' == Step(w, st, CompletePayout(id, token, amount), now)
  {
    hide TransactionsComplete, Sound, SettlePayout, Step, Shelved, Carded;
    SoundTables(w, since);
    CompleteStep(w, st, id, token, amount, now);
    CompleteRefused(w, st, id, token, amount, now);
    if w.receipts[id].state == Paid {
      RepeatedComplete(w, st, id, token, amount, now);
    } else {
      CompleteExactly(w, st, id, token, amount, now);
    }
  }

  // ---------- what a payment stores at the merchant ----------

  /**
    An answered payment leaves one more transaction there, under the next number: the
    receipt's amount and account, created, asked for and performed at the times the calls were
    made, and for a stored order.
   */
  lemma ChainStores(b: Merchant.Books, st: Merchant.Settings, amount: int, account: map<string, string>, time: int,
                    draw: PayDraw)
    requires MerchantProofs.Shaped(b) && Merchant.TxIndex(b.txs, draw.txn) == |b.txs|
    requires Chain(b, st, amount, account, time, draw).1.Ok?
    ensures var txs := Chain(b, st, amount, account, time, draw).0.txs;
      && |txs| == |b.txs| + 1 && txs[..|b.txs|] == b.txs
      && var t := txs[|b.txs|];
      && t.orderID != 0
      && t == Merchant.Tx(b.nextTx, draw.txn, t.orderID, t.accountID, account, amount, Merchant.State.Performed, None,
                          time, draw.createNow, draw.performNow, 0)
  {
    hide Merchant.CheckPerform, Merchant.Create, Merchant.Perform, MerchantProofs.Shaped, Merchant.ResolveOrder;
    var p := Merchant.CreateParams(draw.txn, time, amount, account);
    SubscribeBooks.CheckQuiet(b, st, account, amount);
    var b1 := Merchant.CheckPerform(b, st, account, amount).0;
    MerchantEffects.CreateExactly(b1, st, p, draw.createNow);
    MerchantProofs.CreateShaped(b1, st, p, draw.createNow);
    CreatedForOrder(b1, st, p, draw.createNow);
    var b2 := Merchant.Create(b1, st, p, draw.createNow).0;
    var i := |b.txs|;
    SubscribeBooks.RowAfterAppend(b.txs, b2.txs[i], draw.txn);
    ShapedOrders(b2);
    MerchantEffects.PerformExactly(b2, st, i, draw.performNow);
  }

  lemma ShapedOrders(b: Merchant.Books)
    requires MerchantProofs.Shaped(b)
    ensures MerchantProofs.OrderTable(b.orders, b.nextOrder)
  {
  }

  lemma CreatedForOrder(b: Merchant.Books, st: Merchant.Settings, p: Merchant.CreateParams, now: int)
    requires MerchantProofs.Shaped(b) && Merchant.TxIndex(b.txs, p.id) == |b.txs| && Merchant.Create(b, st, p, now).1.Ok?
    ensures var r := Merchant.ResolveOrder(b, st, p.account, p.amount).1; r.Ok? && r.value.id != 0
  {
    MerchantProofs.AdmittedIsStored(b, st, p);
    hide Merchant.ResolveOrder, Merchant.Insert;
  }

  /** The codes the protocol gives the states of a receipt. */
  lemma ReceiptCodes()
    ensures Created.Code() == 0 && Checking.Code() == 1 && Withdrawn.Code() == 2 && Closing.Code() == 3 && Paid.Code() == 4
    ensures Held.Code() == 5 && HoldAccepted.Code() == 6 && Paused.Code() == 20 && CancelQueued.Code() == 21
    ensures CloseQueued.Code() == 30 && Cancelled.Code() == 50
  {
  }
}
