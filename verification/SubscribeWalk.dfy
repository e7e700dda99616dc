/** Where receipts can go, and why the walk ends. */
module SubscribeWalk {
  import opened Common
  import opened Sums
  import opened SubscribeModel
  import opened SubscribeProofs
  import Merchant = MerchantModel

  // ---------- reachable states and times ----------

  /**
    Whatever is delivered, a receipt is in one of the states 0, 1, 2, 3, 4, 5, 21 and 50, and
    its times are in order wherever they are set.
   */
  lemma ReachableReceipts(w: World, st: Settings, deliveries: seq<Delivery>, id: string)
    requires Opening(w) && Proper(w, st, deliveries)
    ensures id in Run(w, st, deliveries).receipts ==>
      var r := Run(w, st, deliveries).receipts[id];
      && r.state.Code() in {0, 1, 2, 3, 4, 5, 21, 50}
      && (r.payTime != 0 ==> r.createTime <= r.payTime)
      && (r.cancelTime != 0 ==> r.createTime <= r.cancelTime && (r.payTime != 0 ==> r.payTime <= r.cancelTime))
  {
    RunSound(w, st, deliveries);
    assert id in Run(w, st, deliveries).receipts ==> OnWalk(Run(w, st, deliveries).receipts[id], Latest(deliveries));
  }

  /** What one call may do to one stored receipt. */
  predicate Allowed(r: ReceiptRow, r': ReceiptRow, call: Call, now: int) {
    match call
    case Pay(id, _, _, _) => r.id == id && r.state.Created? && r'.state.Checking?
    case ConfirmHold(id) => r.id == id && r.state.Held? && r'.state.Paid?
    case Cancel(id) =>
      r.id == id && !r.state.Cancelled? && !r.state.CancelQueued? &&
      r'.state == if r.state.Created? then Cancelled else CancelQueued
    case CompletePayout(id, _, _) => r.id == id && r.payout && r.state.Created? && r'.state.Paid?
    case Tick(id) => r.id == id && !r.state.Cancelled? && r' == r.AfterAdvance(now)
    case _ => false
  }

  lemma StepAllowed(w: World, st: Settings, call: Call, now: int, id: string)
    requires Shelved(w) && Carded(w) && Unstranded(w) && w.attached && Issued(w, call) && id in w.receipts
    ensures var w' := Step(w, st, call, now);
      && id in w'.receipts
      && (w'.receipts[id] == w.receipts[id] || Allowed(w.receipts[id], w'.receipts[id], call, now))
  {
    hide Carded, ReceiptsPay, ReceiptsConfirmHold, TransactionsComplete, ReceiptsCancel, RunStep;
    match call
    case Cancel(i) => CancelAllowed(w, i, now, id);
    case Tick(i) => if i in w.pending { TickAllowed(w, i, now, id); }
    case Pay(_, _, _, _) => SettlingAllowed(w, st, call, now, id);
    case ConfirmHold(_) => SettlingAllowed(w, st, call, now, id);
    case CompletePayout(_, _, _) => SettlingAllowed(w, st, call, now, id);
    case _ => OtherCallsLeave(w, st, call, now, id);
  }

  /** The three calls that settle a receipt, or set it on its way. */
  lemma SettlingAllowed(w: World, st: Settings, call: Call, now: int, id: string)
    requires Shelved(w) && Carded(w) && w.attached && id in w.receipts
    requires call.Pay? || call.ConfirmHold? || call.CompletePayout?
    ensures var w' := Step(w, st, call, now);
      && id in w'.receipts
      && (w'.receipts[id] == w.receipts[id] || Allowed(w.receipts[id], w'.receipts[id], call, now))
  {
    hide ReceiptsPay, ReceiptsConfirmHold, TransactionsComplete, Carded;
    match call
    case Pay(i, token, hold, draw) => PayStepAllowed(w, st, i, token, hold, draw, now, id);
    case ConfirmHold(i) => ConfirmHoldAllowed(w, i, now, id);
    case CompletePayout(i, token, amount) => CompleteStepAllowed(w, st, i, token, amount, now, id);
  }

  /** Calls about cards, and calls that add a receipt, leave the stored ones as they are. */
  lemma OtherCallsLeave(w: World, st: Settings, call: Call, now: int, id: string)
    requires Issued(w, call) && id in w.receipts
    requires !call.Pay? && !call.ConfirmHold? && !call.Cancel? && !call.CompletePayout? && !call.Tick?
    ensures var w' := Step(w, st, call, now); id in w'.receipts && w'.receipts[id] == w.receipts[id]
  {
    match call
    case CreateCard(p, token) => CardCallsLeave(w, st, p, token, "", now);
    case GetVerifyCode(token) => CardCallsLeave(w, st, CardParams("", "", false, map[], ""), token, "", now);
    case Verify(token, code) => CardCallsLeave(w, st, CardParams("", "", false, map[], ""), token, code, now);
    case RemoveCard(token) => CardCallsLeave(w, st, CardParams("", "", false, map[], ""), token, "", now);
    case CreateReceipt(amount, account, hold, i) => CreateReceiptLeaves(w, st, amount, account, hold, i, now, id);
    case CreatePayout(amount, token, account, i, txn) => CreatePayoutLeaves(w, st, amount, token, account, i, txn, now, id);
    case ToMerchant(_) =>
  }

  lemma ConfirmHoldAllowed(w: World, i: string, now: int, id: string)
    requires Shelved(w) && id in w.receipts
    ensures var w' := ReceiptsConfirmHold(w, i, now).0;
      && id in w'.receipts
      && (w'.receipts[id] == w.receipts[id] || (i == id && w.receipts[id].state.Held? && w'.receipts[id].state.Paid?))
  {
    assert w.receipts[id].id == id;
  }

  lemma PayStepAllowed(w: World, st: Settings, i: string, token: string, hold: bool, draw: PayDraw, now: int, id: string)
    requires Shelved(w) && Carded(w) && w.attached && id in w.receipts
    ensures var w' := ReceiptsPay(w, st, i, token, hold, draw, now).0;
      && id in w'.receipts
      && (w'.receipts[id] == w.receipts[id] ||
          (i == id && w.receipts[id].state.Created? && w'.receipts[id].state.Checking?))
  {
    if w.LoadReceipt(i).Ok? {
      var receipt := w.receipts[i];
      var (books, answer) := Chain(w.books, st.merchant, receipt.amount, receipt.account, now, draw);
      PayAllowed(w, st, i, token, hold, draw.txn, now, books, answer, id);
    }
  }

  lemma CompleteStepAllowed(w: World, st: Settings, i: string, token: string, amount: int, now: int, id: string)
    requires Shelved(w) && Carded(w) && id in w.receipts
    ensures var w' := TransactionsComplete(w, st, i, token, amount, now).0;
      && id in w'.receipts
      && (w'.receipts[id] == w.receipts[id] ||
          (i == id && w.receipts[id].payout && w.receipts[id].state.Created? && w'.receipts[id].state.Paid?))
  {
    if w.LoadReceipt(i).Ok? {
      CompleteAllowed(w, i, token, amount, now, Settlement(w, st, w.receipts[i], now), id);
    }
  }

  lemma CreatePayoutLeaves(w: World, st: Settings, amount: int, token: string, account: map<string, string>, i: string,
                           txn: string, now: int, id: string)
    requires id in w.receipts && i !in w.receipts
    ensures var w' := TransactionsCreate(w, st, amount, token, account, i, txn, now).0;
      id in w'.receipts && w'.receipts[id] == w.receipts[id]
  {
    CreatePayoutAdds(w, amount, token, account, i, txn, now,
                     if st.ledger then OpenPayout(w.books, Payout(txn, amount, account, now, 0)) else Ok(w.books));
  }

  lemma CardCallsLeave(w: World, st: Settings, p: CardParams, token: string, code: string, now: int)
    ensures CardsCreate(w, st, p, token, now).0.receipts == w.receipts
    ensures CardsGetVerifyCode(w, st, token, now).0.receipts == w.receipts
    ensures CardsVerify(w, token, code, now).0.receipts == w.receipts
    ensures CardsRemove(w, token).0.receipts == w.receipts
  {
  }

  lemma CreateReceiptLeaves(w: World, st: Settings, amount: int, account: map<string, string>, hold: bool, i: string,
                            now: int, id: string)
    requires id in w.receipts && i !in w.receipts
    ensures var w' := ReceiptsCreate(w, st, amount, account, hold, i, now).0;
      id in w'.receipts && w'.receipts[id] == w.receipts[id]
  {
  }

  lemma PayAllowed(w: World, st: Settings, i: string, token: string, hold: bool, txn: string, now: int,
                   books: Merchant.Books, answer: Result<()>, id: string)
    requires Shelved(w) && Carded(w) && w.attached && id in w.receipts
    ensures var w' := PayAnswered(w, st, i, token, hold, txn, now, books, answer).0;
      && id in w'.receipts
      && (w'.receipts[id] == w.receipts[id] ||
          (i == id && w.receipts[id].state.Created? && w'.receipts[id].state.Checking?))
  {
    if PayAnswered(w, st, i, token, hold, txn, now, books, answer).1.Ok? {
      Loaded(w, token, i);
      PayReplaces(w, st, i, token, hold, txn, now, books, answer);
    }
  }

  lemma CancelAllowed(w: World, i: string, now: int, id: string)
    requires Shelved(w) && Carded(w) && w.attached && id in w.receipts
    ensures var w' := ReceiptsCancel(w, i, now).0;
      id in w'.receipts && (w'.receipts[id] == w.receipts[id] || Allowed(w.receipts[id], w'.receipts[id], Cancel(i), now))
  {
    if ReceiptsCancel(w, i, now).1.Ok? {
      CancelReplaces(w, i, now);
    }
  }

  lemma CompleteAllowed(w: World, i: string, token: string, amount: int, now: int, answer: Result<Merchant.Books>, id: string)
    requires Shelved(w) && Carded(w) && id in w.receipts
    ensures var w' := CompleteAnswered(w, i, token, amount, now, answer).0;
      && id in w'.receipts
      && (w'.receipts[id] == w.receipts[id] ||
          (i == id && w.receipts[id].payout && w.receipts[id].state.Created? && w'.receipts[id].state.Paid?))
  {
    if CompleteAnswered(w, i, token, amount, now, answer).1.Ok? {
      Loaded(w, token, i);
      CompleteReplaces(w, i, token, amount, now, answer);
    }
  }

  lemma ReplacedOne(w: World, w': World, r: ReceiptRow, id: string)
    requires Replaced(w, w', r) && id in w.receipts
    ensures id in w'.receipts && w'.receipts[id] == if id == r.id then r else w.receipts[id]
  {
  }

  lemma TickAllowed(w: World, i: string, now: int, id: string)
    requires w.attached && id in w.receipts && i in w.pending && i in w.receipts && i != "" && w.receipts[i].id == i
    ensures var w' := RunStep(w, i, now);
      id in w'.receipts && (w'.receipts[id] == w.receipts[id] || Allowed(w.receipts[id], w'.receipts[id], Tick(i), now))
  {
    RunStepReplaces(w, i, now);
    var r := w.receipts[i].AfterAdvance(now);
    ReplacedOne(w, RunStep(w, i, now), r, id);
  }

  /** Begun with hold and not confirmed, or on its way to cancelled. */
  predicate Unconfirmed(r: ReceiptRow) {
    !r.state.Created? && !r.state.Paid? && (r.hold || r.state.CancelQueued? || r.state.Cancelled?)
  }

  lemma StaysUnconfirmed(w: World, st: Settings, call: Call, now: int, id: string)
    requires Sound(w, now) && Issued(w, call) && id in w.receipts && Unconfirmed(w.receipts[id])
    requires call != ConfirmHold(id)
    ensures var w' := Step(w, st, call, now); id in w'.receipts && Unconfirmed(w'.receipts[id])
  {
    StepAllowed(w, st, call, now, id);
  }

  /** A payment paid with hold reaches paid through a confirmation and no other call, over every run. */
  lemma {:induction false} HeldUntilConfirmed(w: World, st: Settings, past: seq<Delivery>, deliveries: seq<Delivery>, id: string)
    requires Opening(w) && Proper(w, st, past + deliveries)
    requires id in Run(w, st, past).receipts && Unconfirmed(Run(w, st, past).receipts[id])
    ensures var w' := Run(w, st, past + deliveries);
      && id in w'.receipts
      && (Unconfirmed(w'.receipts[id]) || exists k :: 0 <= k < |deliveries| && deliveries[k].call == ConfirmHold(id))
  {
    hide Step;
    if deliveries == [] {
      assert past + deliveries == past;
    } else {
      var n := |deliveries| - 1;
      var all := past + deliveries;
      assert all[..|all| - 1] == past + deliveries[..n];
      HeldUntilConfirmed(w, st, past, deliveries[..n], id);
      var before := Run(w, st, past + deliveries[..n]);
      RunSound(w, st, past + deliveries[..n]);
      LaterSound(before, Latest(past + deliveries[..n]), deliveries[n].now);
      if Unconfirmed(before.receipts[id]) && deliveries[n].call != ConfirmHold(id) {
        StaysUnconfirmed(before, st, deliveries[n].call, deliveries[n].now, id);
      } else {
        StepAllowed(before, st, deliveries[n].call, deliveries[n].now, id);
        if Unconfirmed(before.receipts[id]) {
          assert deliveries[n].call == ConfirmHold(id);
        } else {
          var k :| 0 <= k < n && deliveries[..n][k].call == ConfirmHold(id);
          assert deliveries[k].call == ConfirmHold(id);
        }
      }
    }
  }

  /** A cancelled receipt stays exactly as it is, through every later run. */
  lemma {:induction false} CancelledForGood(w: World, st: Settings, past: seq<Delivery>, deliveries: seq<Delivery>, id: string)
    requires Opening(w) && Proper(w, st, past + deliveries)
    requires id in Run(w, st, past).receipts && Run(w, st, past).receipts[id].state.Cancelled?
    ensures var w' := Run(w, st, past + deliveries);
      id in w'.receipts && w'.receipts[id] == Run(w, st, past).receipts[id]
  {
    hide Step;
    if deliveries == [] {
      assert past + deliveries == past;
    } else {
      var n := |deliveries| - 1;
      var all := past + deliveries;
      assert all[..|all| - 1] == past + deliveries[..n];
      CancelledForGood(w, st, past, deliveries[..n], id);
      RunSound(w, st, past + deliveries[..n]);
      CancelledStays(Run(w, st, past + deliveries[..n]), st, Latest(past + deliveries[..n]),
                     deliveries[n].call, deliveries[n].now, id);
    }
  }

  lemma CancelledStays(w: World, st: Settings, since: int, call: Call, now: int, id: string)
    requires Sound(w, since) && since <= now && Issued(w, call) && id in w.receipts && w.receipts[id].state.Cancelled?
    ensures var w' := Step(w, st, call, now); id in w'.receipts && w'.receipts[id] == w.receipts[id]
  {
    LaterSound(w, since, now);
    StepAllowed(w, st, call, now, id);
  }

  // ---------- the walk ends ----------

  /** How many steps a receipt still has before it rests. */
  function Rank(s: ReceiptState): nat {
    match s
    case Checking => 3
    case Withdrawn => 2
    case Closing => 1
    case CancelQueued => 1
    case _ => 0
  }

  function Ranks(w: World): seq<int> {
    seq(|w.order|, k requires 0 <= k < |w.order| =>
      if w.order[k] in w.receipts then Rank(w.receipts[w.order[k]].state) else 0)
  }

  /** The steps every receipt has before it, and the entries waiting in the queue. */
  function Work(w: World): int { Sum(Ranks(w)) + |w.pending| }

  lemma WorkNonNegative(w: World)
    ensures 0 <= Work(w)
  {
    SumNonNegative(Ranks(w));
  }

  lemma ReplacedRanks(w: World, w': World, r: ReceiptRow)
    requires Shelved(w) && Replaced(w, w', r)
    ensures Sum(Ranks(w')) == Sum(Ranks(w)) - Rank(w.receipts[r.id].state) + Rank(r.state)
  {
    var k :| 0 <= k < |w.order| && w.order[k] == r.id;
    assert Ranks(w') == Ranks(w)[k := Rank(r.state)];
    SumUpdate(Ranks(w), k, Rank(r.state));
  }

  lemma LessWork(w: World, w': World, r: ReceiptRow, again: bool)
    requires Shelved(w) && Replaced(w, w', r) && r.id in w.pending
    requires w'.pending == if again then w.pending else w.pending - multiset{r.id}
    requires Rank(r.state) <= Rank(w.receipts[r.id].state)
    requires again ==> Rank(r.state) < Rank(w.receipts[r.id].state)
    ensures Work(w') < Work(w)
  {
    ReplacedRanks(w, w', r);
  }

  lemma AdvanceRanks(r: ReceiptRow, now: int)
    requires !r.state.Created?
    ensures var r' := r.AfterAdvance(now);
      && Rank(r'.state) <= Rank(r.state)
      && (GoesOn(r, r') ==> Rank(r'.state) < Rank(r.state))
  {
  }

  /** Every step leaves less work, though a walk that goes on reschedules itself. */
  lemma StepWorks(w: World, id: string, now: int)
    requires Shelved(w) && w.attached && id in w.pending && id in w.receipts && !w.receipts[id].state.Created?
    ensures Work(RunStep(w, id, now)) < Work(w)
  {
    RunStepReplaces(w, id, now);
    var r := w.receipts[id].AfterAdvance(now);
    AdvanceRanks(w.receipts[id], now);
    LessWork(w, RunStep(w, id, now), r, GoesOn(w.receipts[id], r));
  }

  /** The steps the scheduler ran, in the order it happened to run them. */
  datatype Pick = Pick(id: string, now: int)

  predicate Possible(w: World, picks: seq<Pick>, since: int)
    decreases |picks|
  {
    picks == [] ||
    (picks[0].id in w.pending && since <= picks[0].now &&
     Possible(RunStep(w, picks[0].id, picks[0].now), picks[1..], picks[0].now))
  }

  function Drained(w: World, picks: seq<Pick>, since: int): World
    requires Possible(w, picks, since)
    decreases |picks|
  {
    if picks == [] then w
    else Drained(RunStep(w, picks[0].id, picks[0].now), picks[1..], picks[0].now)
  }

  predicate Settled(w: World) {
    forall id :: id in w.receipts ==>
      var s := w.receipts[id].state; s.Created? || s.Paid? || s.Held? || s.Cancelled?
  }

  /** A queued step, at any later time, leaves a sound state with less to do. */
  lemma PickWorks(w: World, id: string, since: int, now: int)
    requires Sound(w, since) && since <= now && id in w.pending
    ensures Sound(RunStep(w, id, now), now) && 0 <= Work(RunStep(w, id, now)) < Work(w)
  {
    LaterSound(w, since, now);
    StepWorks(w, id, now);
    RunStepSound(w, id, now);
    WorkNonNegative(RunStep(w, id, now));
  }

  /** When the last of these steps ran. */
  function LastPick(picks: seq<Pick>, since: int): int { if picks == [] then since else picks[|picks| - 1].now }

  /** The steps empty the queue. */
  predicate Empties(w: World, picks: seq<Pick>, since: int) {
    Possible(w, picks, since) && Drained(w, picks, since).pending == multiset{}
  }

  /** Some order of steps empties the queue. */
  lemma {:induction false} Emptying(w: World, since: int) returns (picks: seq<Pick>)
    requires Sound(w, since)
    ensures Empties(w, picks, since)
    decreases Work(w)
  {
    hide RunStep, Sound, Work;
    picks := [];
    if w.pending != multiset{} {
      var id :| id in w.pending;
      PickWorks(w, id, since, since);
      var rest := Emptying(RunStep(w, id, since), since);
      picks := [Pick(id, since)] + rest;
      assert picks[1..] == rest;
    }
  }

  ghost predicate CanEmpty(w: World, since: int) { exists picks :: Empties(w, picks, since) }

  lemma EmptiesSomehow(w: World, since: int)
    requires Sound(w, since)
    ensures CanEmpty(w, since)
  {
    var picks := Emptying(w, since);
  }

  /**
    Draining with no new calls ends: in whatever order steps run, no more than Work of them
    can; however they were run so far, the queue can still be emptied; and once it is, every
    receipt that was started is paid, held or cancelled.
   */
  lemma {:induction false} WalkEnds(w: World, picks: seq<Pick>, since: int)
    requires Sound(w, since) && Possible(w, picks, since)
    ensures var w' := Drained(w, picks, since);
      && |picks| <= Work(w)
      && CanEmpty(w', LastPick(picks, since))
      && (w'.pending == multiset{} ==> Settled(w'))
    decreases |picks|
  {
    hide RunStep, Sound, Work, Settled, CanEmpty;
    if picks == [] {
      WorkNonNegative(w);
      RestingSettled(w, since);
      EmptiesSomehow(w, since);
    } else {
      PickWorks(w, picks[0].id, since, picks[0].now);
      WalkEnds(RunStep(w, picks[0].id, picks[0].now), picks[1..], picks[0].now);
      assert LastPick(picks[1..], picks[0].now) == LastPick(picks, since);
    }
  }

  lemma RestingSettled(w: World, now: int)
    requires Sound(w, now)
    ensures w.pending == multiset{} ==> Settled(w)
  {
    if w.pending == multiset{} {
      forall id | id in w.receipts
        ensures var s := w.receipts[id].state; s.Created? || s.Paid? || s.Held? || s.Cancelled?
      {
        assert OnWalk(w.receipts[id], now);
        assert id !in w.pending;
      }
    }
  }

  /**
    Every receipt in progress has a step to come, in every reachable state: also when a
    cancellation lands mid-walk and leaves two of them queued.
   */
  lemma NoneStranded(w: World, st: Settings, deliveries: seq<Delivery>, id: string)
    requires Opening(w) && Proper(w, st, deliveries)
    ensures var w' := Run(w, st, deliveries);
      && (id in w'.receipts && w'.receipts[id].state.InProgress() ==> id in w'.pending)
      && (id in w'.pending ==> id in w'.receipts && !w'.receipts[id].state.Created?)
  {
    RunSound(w, st, deliveries);
  }

  /** Before a runner is attached the queue drops its steps, and a paid receipt stays at checking. */
  lemma StrandedWithoutRunner(w: World, st: Settings, id: string, token: string, hold: bool, txn: string, now: int,
                              books: Merchant.Books, answer: Result<()>)
    requires !w.attached && w.pending == multiset{}
    requires PayAnswered(w, st, id, token, hold, txn, now, books, answer).1.Ok? && w.receipts[id].id == id
    ensures var w' := PayAnswered(w, st, id, token, hold, txn, now, books, answer).0;
      id in w'.receipts && w'.receipts[id].state.Checking? && w'.pending == multiset{}
  {
  }
}
