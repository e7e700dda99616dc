/**
  The two books together: what one payment moves between a card and the register, what a
  payout takes out of it, and what every run of both APIs keeps of the register's tables.
 */
module SubscribeBooks {
  import opened Common
  import opened SubscribeModel
  import opened SubscribeProofs
  import Billing
  import Merchant = MerchantModel
  import MerchantMoney
  import MerchantProofs
  import MerchantReplay
  import Decimal

  // ---------- one transaction of the table ----------

  function RowOf(txs: seq<Merchant.Tx>, txn: string): Option<Merchant.Tx> {
    var i := Merchant.TxIndex(txs, txn);
    if i < |txs| then Some(txs[i]) else None
  }

  lemma RowAfterAppend(txs: seq<Merchant.Tx>, t: Merchant.Tx, txn: string)
    requires t.paymeID == txn ==> Merchant.TxIndex(txs, txn) == |txs|
    ensures RowOf(txs + [t], txn) == if t.paymeID == txn then Some(t) else RowOf(txs, txn)
  {
    var i := Merchant.TxIndex(txs, txn);
    assert i < |txs| ==> (txs + [t])[i] == txs[i];
    assert (txs + [t])[|txs|] == t;
  }

  lemma RowAfterSet(txs: seq<Merchant.Tx>, i: nat, t: Merchant.Tx, txn: string)
    requires i < |txs| && t.paymeID == txs[i].paymeID
    requires t.paymeID == txn ==> Merchant.TxIndex(txs, txn) == i
    ensures RowOf(txs[i := t], txn) == if t.paymeID == txn then Some(t) else RowOf(txs, txn)
  {
    var k, k' := Merchant.TxIndex(txs, txn), Merchant.TxIndex(txs[i := t], txn);
    assert k < |txs| ==> txs[i := t][k].paymeID == txn;
    assert k' < |txs| ==> txs[k'].paymeID == txn;
  }

  /** The delivery is about this transaction. */
  predicate Touches(call: Merchant.Call, txn: string) {
    match call
    case CreateCall(p) => p.id == txn
    case LateCall(_, p) => p.id == txn
    case PerformCall(id) => id == txn
    case CancelCall(id, _) => id == txn
    case _ => false
  }

  lemma InsertRows(b: Merchant.Books, order: Billing.OrderRow, p: Merchant.CreateParams, now: int, txn: string)
    requires p.id != txn
    ensures RowOf(Merchant.Insert(b, order, p, now).0.txs, txn) == RowOf(b.txs, txn)
  {
    RowAfterAppend(b.txs, Merchant.NewTx(b, order, p, now), txn);
  }

  lemma PerformAndCancelRows(b: Merchant.Books, st: Merchant.Settings, id: string, reason: int, now: int, txn: string)
    requires id != txn
    ensures RowOf(Merchant.Perform(b, st, id, now).0.txs, txn) == RowOf(b.txs, txn)
    ensures RowOf(Merchant.Cancel(b, st, id, reason, now).0.txs, txn) == RowOf(b.txs, txn)
  {
    var i := Merchant.TxIndex(b.txs, id);
    if i < |b.txs| {
      RowAfterSet(b.txs, i, b.txs[i].AfterPerform(now, st.timeoutMillis).0, txn);
      RowAfterSet(b.txs, i, b.txs[i].AfterCancel(reason, now), txn);
    }
    hide RowOf;
  }

  /** A merchant delivery leaves every other transaction as it was. */
  lemma MerchantRows(b: Merchant.Books, st: Merchant.Settings, call: Merchant.Call, now: int, txn: string)
    requires !Touches(call, txn)
    ensures RowOf(Merchant.Step(b, st, call, now).txs, txn) == RowOf(b.txs, txn)
  {
    match call
    case CheckCall(account, amount) => MerchantProofs.ResolveCases(b, st, account, amount);
    case CreateCall(p) =>
      MerchantMoney.AdmitKeepsTransactions(b, st, p);
      var (b1, order) := Merchant.Admit(b, st, p);
      if order.Ok? {
        InsertRows(b1, order.value, p, now, txn);
      }
    case LateCall(order, p) => InsertRows(b, order, p, now, txn);
    case PerformCall(id) => PerformAndCancelRows(b, st, id, 0, now, txn);
    case CancelCall(id, reason) => PerformAndCancelRows(b, st, id, reason, now, txn);
    case BlockCall(_) =>
  }

  // ---------- the register's history ----------

  /** How many moves of the register the history puts down to transaction n: only a settled payout names one. */
  function Debits(moves: seq<Billing.BalanceEvent>, n: int): nat {
    if moves == [] then 0
    else
      var last := |moves| - 1;
      Debits(moves[..last], n) + if moves[last].transaction == Some(n) then 1 else 0
  }

  /** How many moves name a transaction at all. */
  function Named(moves: seq<Billing.BalanceEvent>): nat {
    if moves == [] then 0
    else
      var last := |moves| - 1;
      Named(moves[..last]) + if moves[last].transaction.Some? then 1 else 0
  }

  lemma MovesAppend(moves: seq<Billing.BalanceEvent>, e: Billing.BalanceEvent, n: int)
    ensures Debits(moves + [e], n) == Debits(moves, n) + if e.transaction == Some(n) then 1 else 0
    ensures Named(moves + [e]) == Named(moves) + if e.transaction.Some? then 1 else 0
  {
    assert (moves + [e])[..|moves|] == moves;
  }

  lemma {:induction false} NoDebitsBeyond(moves: seq<Billing.BalanceEvent>, n: int)
    requires forall k :: 0 <= k < |moves| && moves[k].transaction.Some? ==> moves[k].transaction.value < n
    ensures Debits(moves, n) == 0
  {
    if moves != [] {
      NoDebitsBeyond(moves[..|moves| - 1], n);
    }
  }

  /** The moves that name no transaction, in order: those of the merchant's own methods. */
  function Plain(moves: seq<Billing.BalanceEvent>): seq<Billing.BalanceEvent> {
    if moves == [] then []
    else
      var last := |moves| - 1;
      Plain(moves[..last]) + if moves[last].transaction.None? then [moves[last]] else []
  }

  lemma PlainAppend(moves: seq<Billing.BalanceEvent>, e: Billing.BalanceEvent)
    ensures Plain(moves + [e]) == Plain(moves) + if e.transaction.None? then [e] else []
  {
    assert (moves + [e])[..|moves|] == moves;
  }

  lemma {:induction false} PlainCounts(moves: seq<Billing.BalanceEvent>)
    ensures |moves| == |Plain(moves)| + Named(moves)
  {
    if moves != [] {
      PlainCounts(moves[..|moves| - 1]);
    }
  }

  /** At most one move was added, and it names no transaction. */
  predicate Unnamed(moves: seq<Billing.BalanceEvent>, moves': seq<Billing.BalanceEvent>) {
    moves' == moves ||
    (|moves'| == |moves| + 1 && moves'[..|moves|] == moves && moves'[|moves|].transaction.None?)
  }

  lemma UnnamedCounts(moves: seq<Billing.BalanceEvent>, moves': seq<Billing.BalanceEvent>, n: int)
    requires Unnamed(moves, moves')
    ensures Debits(moves', n) == Debits(moves, n) && Named(moves') == Named(moves)
  {
  }

  /** No merchant delivery names a transaction in the register's history. */
  lemma LogsUnnamed(b: Merchant.Books, b': Merchant.Books, st: Merchant.Settings)
    requires MerchantMoney.Logs(b, b', st)
    ensures Unnamed(b.moves, b'.moves)
  {
  }

  // ---------- how often a transaction moved the register ----------

  /** The moves a transaction's amount made: those that name it, and the one of each apply the trail enters for it. */
  function Forth(b: Merchant.Books, n: int): nat { Debits(b.moves, n) + MerchantMoney.Applies(b.trail, n) }

  /** And those that undid one. */
  function Back(b: Merchant.Books, n: int): nat { MerchantMoney.Reverses(b.trail, n) }

  /** The transaction's state says how often: once when it was performed, once back when it was cancelled after that. */
  predicate Counted(b: Merchant.Books, t: Merchant.Tx) {
    && Forth(b, t.id) == (if t.state.Performed? || t.state.CancelledAfterDo? then 1 else 0)
    && Back(b, t.id) == (if t.state.CancelledAfterDo? then 1 else 0)
  }

  predicate Debited(b: Merchant.Books) {
    && (forall k :: 0 <= k < |b.moves| && b.moves[k].transaction.Some? ==> b.moves[k].transaction.value < b.nextTx)
    && (forall k :: 0 <= k < |b.trail| ==> b.trail[k].transactionID < b.nextTx)
    && (forall i :: 0 <= i < |b.txs| ==> Counted(b, b.txs[i]))
  }

  lemma Uncounted(b: Merchant.Books)
    requires Debited(b)
    ensures Forth(b, b.nextTx) == 0 && Back(b, b.nextTx) == 0 && Debits(b.moves, b.nextTx) == 0
  {
    NoDebitsBeyond(b.moves, b.nextTx);
    MerchantMoney.NoCountsBeyond(b.trail, b.nextTx);
  }

  /** What one entry and at most one unnamed move do to the counts. */
  lemma CountsAfter(b: Merchant.Books, b': Merchant.Books, n: int)
    requires Unnamed(b.moves, b'.moves) && |b'.trail| == |b.trail| + 1 && b'.trail == b.trail + [b'.trail[|b.trail|]]
    ensures var e := b'.trail[|b.trail|];
      && Forth(b', n) == Forth(b, n) + (if MerchantMoney.IsApply(e) && e.transactionID == n then 1 else 0)
      && Back(b', n) == Back(b, n) + (if MerchantMoney.IsReverse(e) && e.transactionID == n then 1 else 0)
  {
    UnnamedCounts(b.moves, b'.moves, n);
    MerchantMoney.CountsAfterLog(b.trail, b'.trail[|b.trail|], n);
  }

  lemma AddedDebited(b: Merchant.Books, b': Merchant.Books)
    requires Debited(b) && MerchantMoney.Added(b, b')
    ensures Debited(b')
  {
    Uncounted(b);
    forall i | 0 <= i < |b'.txs| ensures Counted(b', b'.txs[i]) {
      CountsAfter(b, b', b'.txs[i].id);
      assert i < |b.txs| ==> b'.txs[i] == b.txs[i];
    }
  }

  lemma EnteredDebited(b: Merchant.Books, b': Merchant.Books, st: Merchant.Settings, i: nat)
    requires Debited(b) && MerchantProofs.TxTable(b.txs, b.nextTx, b.nextOrder)
    requires i < |b.txs| && MerchantMoney.Entered(b, b', st, i)
    ensures Debited(b')
  {
    forall k | 0 <= k < |b'.txs| ensures Counted(b', b'.txs[k]) {
      CountsAfter(b, b', b'.txs[k].id);
      assert Counted(b, b.txs[k]);
    }
  }

  lemma LogsDebited(b: Merchant.Books, b': Merchant.Books, st: Merchant.Settings)
    requires Debited(b) && MerchantProofs.Shaped(b) && MerchantMoney.Logs(b, b', st)
    ensures Debited(b')
  {
    hide MerchantMoney.Added, MerchantMoney.Entered;
    if MerchantMoney.Added(b, b') {
      AddedDebited(b, b');
    } else if i: nat :| i < |b.txs| && MerchantMoney.Entered(b, b', st, i) {
      EnteredDebited(b, b', st, i);
    } else {
      SilentDebited(b, b');
    }
  }

  lemma SilentDebited(b: Merchant.Books, b': Merchant.Books)
    requires Debited(b) && MerchantMoney.Silent(b, b')
    ensures Debited(b')
  {
    assert forall i :: 0 <= i < |b'.txs| ==> Counted(b, b'.txs[i]);
  }

  /** The books with the named moves left out of their history. */
  function Unsettled(b: Merchant.Books): Merchant.Books { b.(moves := Plain(b.moves)) }

  lemma LogsPlain(b: Merchant.Books, b': Merchant.Books, st: Merchant.Settings)
    requires MerchantMoney.Logs(b, b', st)
    ensures MerchantMoney.Logs(Unsettled(b), Unsettled(b'), st)
  {
    if b.moves < b'.moves {
      PlainAppend(b.moves, b'.moves[|b.moves|]);
    }
    if i: nat :| i < |b.txs| && MerchantMoney.Entered(b, b', st, i) {
      assert MerchantMoney.Entered(Unsettled(b), Unsettled(b'), st, i);
    } else if MerchantMoney.Added(b, b') {
      assert MerchantMoney.Added(Unsettled(b), Unsettled(b'));
    }
  }

  // ---------- what the register's tables keep ----------

  /**
    The register's invariants since an opening: it reconciles with its performed
    transactions, each of them moved it as often as its state says, and its unnamed moves are,
    one by one, those of the trail's applies and reverses.
   */
  predicate Kept(b: Merchant.Books, st: Merchant.Settings, opening: Merchant.Books) {
    && MerchantProofs.Consistent(b)
    && MerchantMoney.Reconciled(b, st, opening.Register())
    && Debited(b)
    && MerchantMoney.MovesExplained(Unsettled(b), st, |Plain(opening.moves)|)
    && (0 <= opening.Register() ==> 0 <= b.Register())
  }

  lemma MerchantKept(b: Merchant.Books, st: Merchant.Settings, opening: Merchant.Books, call: Merchant.Call, now: int)
    requires Kept(b, st, opening)
    ensures Kept(Merchant.Step(b, st, call, now), st, opening)
  {
    hide Merchant.Step, MerchantProofs.Consistent, MerchantProofs.Shaped, Debited, MerchantMoney.MovesExplained,
         MerchantMoney.Logs, MerchantMoney.Reconciled;
    var b' := Merchant.Step(b, st, call, now);
    MerchantProofs.ConsistentIsShaped(b);
    MerchantProofs.StepConsistent(b, st, call, now);
    MerchantMoney.StepReconciled(b, st, opening.Register(), call, now);
    MerchantMoney.StepLogs(b, st, call, now);
    LogsDebited(b, b', st);
    LogsPlain(b, b', st);
    MerchantMoney.LogsExplained(Unsettled(b), Unsettled(b'), st, |Plain(opening.moves)|);
    if 0 <= opening.Register() {
      MerchantMoney.StepSolvent(b, st, opening.Register(), call, now);
    }
  }

  // ---------- the merchant's part of a payment ----------

  lemma CheckQuiet(b: Merchant.Books, st: Merchant.Settings, account: map<string, string>, amount: int)
    requires MerchantProofs.Shaped(b)
    ensures var b' := Merchant.CheckPerform(b, st, account, amount).0;
      && MerchantProofs.Shaped(b')
      && b'.txs == b.txs && b'.moves == b.moves && b'.Register() == b.Register() && b'.nextTx == b.nextTx
  {
    MerchantProofs.ResolveShaped(b, st, account, amount);
  }

  /** A new transaction is appended exactly when the create is answered. */
  lemma CreateAppends(b: Merchant.Books, st: Merchant.Settings, p: Merchant.CreateParams, now: int)
    requires MerchantProofs.Shaped(b) && Merchant.TxIndex(b.txs, p.id) == |b.txs|
    ensures var (b', r) := Merchant.Create(b, st, p, now);
      if r.Err? then b'.txs == b.txs
      else
        && |b'.txs| == |b.txs| + 1 && b'.txs[..|b.txs|] == b.txs
        && var t := b'.txs[|b.txs|];
           t.paymeID == p.id && t.amount == p.amount && t.account == p.account && t.state.Created? && t.createTime == now
  {
    MerchantMoney.AdmitKeepsTransactions(b, st, p);
    MerchantProofs.AdmittedIsStored(b, st, p);
  }

  /** Performing a created transaction: answered means moved and marked, refused means nothing moved. */
  lemma PerformMoves(b: Merchant.Books, st: Merchant.Settings, i: nat, now: int)
    requires i < |b.txs| && Merchant.TxIndex(b.txs, b.txs[i].paymeID) == i && b.txs[i].state.Created?
    ensures var (b', r) := Merchant.Perform(b, st, b.txs[i].paymeID, now);
      && |b'.txs| == |b.txs| && (forall k :: 0 <= k < |b.txs| && k != i ==> b'.txs[k] == b.txs[k])
      && (r.Ok? ==>
           && b'.txs[i] == b.txs[i].(state := Merchant.State.Performed, performTime := now)
           && b'.Register() == b.Register() + st.Kind().Signed(b.txs[i].amount)
           && |b'.moves| == |b.moves| + 1)
      && (r.Err? ==> b'.accounts == b.accounts && b'.moves == b.moves && !b'.txs[i].state.Performed?)
  {
  }

  /** What the merchant's answer to check, create and perform says about its books. */
  predicate Transferred(b: Merchant.Books, b': Merchant.Books, st: Merchant.Settings, amount: int,
                        account: map<string, string>, draw: PayDraw, answered: bool)
  {
    && |b.txs| <= |b'.txs| <= |b.txs| + 1 && b'.txs[..|b.txs|] == b.txs
    && if answered then
         && |b'.txs| == |b.txs| + 1
         && (var t := b'.txs[|b.txs|];
             && t.paymeID == draw.txn && t.amount == amount && t.account == account
             && t.state.Performed? && t.createTime == draw.createNow && t.performTime == draw.performNow)
         && b'.Register() == b.Register() + st.Kind().Signed(amount)
         && |b'.moves| == |b.moves| + 1
       else
         && (|b.txs| < |b'.txs| ==> !b'.txs[|b.txs|].state.Performed?)
         && b'.Register() == b.Register() && b'.moves == b.moves
  }

  /** The create of a payment that was checked: its transaction is the last of the table, and no money has moved. */
  lemma CreatedLast(b: Merchant.Books, b1: Merchant.Books, st: Merchant.Settings, p: Merchant.CreateParams, now: int)
    requires MerchantProofs.Shaped(b1) && Merchant.TxIndex(b1.txs, p.id) == |b1.txs|
    requires b1.txs == b.txs && b1.moves == b.moves && b1.Register() == b.Register()
    ensures var (b2, created) := Merchant.Create(b1, st, p, now);
      && b2.moves == b.moves && b2.Register() == b.Register()
      && if created.Err? then b2.txs == b.txs
         else
           && |b2.txs| == |b.txs| + 1 && b2.txs[..|b.txs|] == b.txs && Merchant.TxIndex(b2.txs, p.id) == |b.txs|
           && var t := b2.txs[|b.txs|];
              t.amount == p.amount && t.account == p.account && t.state.Created? && t.createTime == now
  {
    CreateAppends(b1, st, p, now);
    MerchantMoney.CreateQuiet(b1, st, p, now);
    var (b2, created) := Merchant.Create(b1, st, p, now);
    if created.Ok? {
      assert b2.txs == b.txs + [b2.txs[|b.txs|]];
      RowAfterAppend(b.txs, b2.txs[|b.txs|], p.id);
    }
  }

  lemma PerformedTransfers(b: Merchant.Books, b2: Merchant.Books, st: Merchant.Settings, amount: int,
                           account: map<string, string>, draw: PayDraw)
    requires |b2.txs| == |b.txs| + 1 && b2.txs[..|b.txs|] == b.txs && Merchant.TxIndex(b2.txs, draw.txn) == |b.txs|
    requires b2.moves == b.moves && b2.Register() == b.Register()
    requires var t := b2.txs[|b.txs|];
      t.amount == amount && t.account == account && t.state.Created? && t.createTime == draw.createNow
    ensures var (b3, performed) := Merchant.Perform(b2, st, draw.txn, draw.performNow);
      Transferred(b, b3, st, amount, account, draw, performed.Ok?)
  {
    PerformMoves(b2, st, |b.txs|, draw.performNow);
    var b3 := Merchant.Perform(b2, st, draw.txn, draw.performNow).0;
    assert b3.txs[..|b.txs|] == b2.txs[..|b.txs|];
  }

  lemma ChainTransfers(b: Merchant.Books, st: Merchant.Settings, amount: int, account: map<string, string>,
                       time: int, draw: PayDraw)
    requires MerchantProofs.Shaped(b) && Merchant.TxIndex(b.txs, draw.txn) == |b.txs|
    ensures var (b', r) := Chain(b, st, amount, account, time, draw); Transferred(b, b', st, amount, account, draw, r.Ok?)
  {
    hide Merchant.CheckPerform, Merchant.Create, Merchant.Perform, MerchantProofs.Shaped, Transferred, Merchant.TxIndex;
    CheckQuiet(b, st, account, amount);
    var (b1, checked) := Merchant.CheckPerform(b, st, account, amount);
    if checked.Ok? {
      var p := Merchant.CreateParams(draw.txn, time, amount, account);
      CreatedLast(b, b1, st, p, draw.createNow);
      var (b2, created) := Merchant.Create(b1, st, p, draw.createNow);
      if created.Ok? {
        PerformedTransfers(b, b2, st, amount, account, draw);
        var (b3, performed) := Merchant.Perform(b2, st, draw.txn, draw.performNow);
        assert Chain(b, st, amount, account, time, draw).0 == b3;
        assert Chain(b, st, amount, account, time, draw).1.Ok? == performed.Ok?;
      } else {
        RefusedTransfers(b, b2, st, amount, account, draw);
      }
    } else {
      RefusedTransfers(b, b1, st, amount, account, draw);
    }
  }

  lemma RefusedTransfers(b: Merchant.Books, b': Merchant.Books, st: Merchant.Settings, amount: int,
                         account: map<string, string>, draw: PayDraw)
    requires b'.txs == b.txs && b'.moves == b.moves && b'.Register() == b.Register()
    ensures Transferred(b, b', st, amount, account, draw, false)
  {
  }

  /** The books a payment leaves are those after one, two or all three of its deliveries. */
  lemma ChainSteps(b: Merchant.Books, st: Merchant.Settings, amount: int, account: map<string, string>, time: int,
                   draw: PayDraw)
    ensures
      var b1 := Merchant.Step(b, st, Merchant.CheckCall(account, amount), time);
      var b2 := Merchant.Step(b1, st, Merchant.CreateCall(Merchant.CreateParams(draw.txn, time, amount, account)), draw.createNow);
      var b3 := Merchant.Step(b2, st, Merchant.PerformCall(draw.txn), draw.performNow);
      Chain(b, st, amount, account, time, draw).0 in {b1, b2, b3}
  {
  }

  /** What a payment cannot disturb: the register's invariants, and every other transaction's row and history. */
  lemma ChainKept(b: Merchant.Books, st: Merchant.Settings, opening: Merchant.Books, amount: int,
                  account: map<string, string>,
                  time: int, draw: PayDraw)
    requires Kept(b, st, opening)
    ensures Kept(Chain(b, st, amount, account, time, draw).0, st, opening)
  {
    var check := Merchant.CheckCall(account, amount);
    var create := Merchant.CreateCall(Merchant.CreateParams(draw.txn, time, amount, account));
    var b1 := Merchant.Step(b, st, check, time);
    var b2 := Merchant.Step(b1, st, create, draw.createNow);
    MerchantKept(b, st, opening, check, time);
    MerchantKept(b1, st, opening, create, draw.createNow);
    MerchantKept(b2, st, opening, Merchant.PerformCall(draw.txn), draw.performNow);
    ChainSteps(b, st, amount, account, time, draw);
  }

  lemma ChainElsewhere(b: Merchant.Books, st: Merchant.Settings, amount: int, account: map<string, string>,
                       time: int, draw: PayDraw, txn: string, n: int)
    requires txn != draw.txn && MerchantProofs.Shaped(b)
    ensures var b' := Chain(b, st, amount, account, time, draw).0;
      RowOf(b'.txs, txn) == RowOf(b.txs, txn) && Debits(b'.moves, n) == Debits(b.moves, n) && Named(b'.moves) == Named(b.moves)
  {
    var check := Merchant.CheckCall(account, amount);
    var create := Merchant.CreateCall(Merchant.CreateParams(draw.txn, time, amount, account));
    var b1 := Merchant.Step(b, st, check, time);
    var b2 := Merchant.Step(b1, st, create, draw.createNow);
    MerchantProofs.StepShaped(b, st, check, time);
    MerchantProofs.StepShaped(b1, st, create, draw.createNow);
    Elsewhere(b, st, check, time, txn, n);
    Elsewhere(b1, st, create, draw.createNow, txn, n);
    Elsewhere(b2, st, Merchant.PerformCall(draw.txn), draw.performNow, txn, n);
    ChainSteps(b, st, amount, account, time, draw);
  }

  lemma Elsewhere(b: Merchant.Books, st: Merchant.Settings, call: Merchant.Call, now: int, txn: string, n: int)
    requires !Touches(call, txn) && MerchantProofs.Shaped(b)
    ensures var b' := Merchant.Step(b, st, call, now);
      RowOf(b'.txs, txn) == RowOf(b.txs, txn) && Debits(b'.moves, n) == Debits(b.moves, n) && Named(b'.moves) == Named(b.moves)
  {
    MerchantRows(b, st, call, now, txn);
    MerchantUnnamed(b, st, call, now, n);
  }

  lemma MerchantUnnamed(b: Merchant.Books, st: Merchant.Settings, call: Merchant.Call, now: int, n: int)
    requires MerchantProofs.Shaped(b)
    ensures var b' := Merchant.Step(b, st, call, now);
      Debits(b'.moves, n) == Debits(b.moves, n) && Named(b'.moves) == Named(b.moves)
  {
    hide Merchant.Step, MerchantProofs.Shaped;
    var b' := Merchant.Step(b, st, call, now);
    MerchantMoney.StepLogs(b, st, call, now);
    LogsUnnamed(b, b', st);
    UnnamedCounts(b.moves, b'.moves, n);
  }

  /**
    A payment the stand answers moves exactly the receipt's amount from the card to the
    register and leaves a performed transaction of that identifier and amount; a refusal at
    any stage, the merchant's three answers included, moves no money on either side.
   */
  lemma PayTransfers(w: World, st: Settings, id: string, token: string, hold: bool, draw: PayDraw, now: int)
    requires Shelved(w) && Carded(w) && w.attached && MerchantProofs.Shaped(w.books)
    requires Merchant.TxIndex(w.books.txs, draw.txn) == |w.books.txs|
    ensures var (w', r) := ReceiptsPay(w, st, id, token, hold, draw, now);
      if r.Ok? then
        && id in w.receipts && w.LoadCard(token).Ok?
        && var amount, card := w.receipts[id].amount, w.LoadCard(token).value;
        && w'.cards == w.cards[card.id := card.Moved(-amount)]
        && Transferred(w.books, w'.books, st.merchant, amount, w.receipts[id].account, draw, true)
        && id in w'.receipts && w'.receipts[id].merchantTxn == draw.txn && w'.receipts[id].amount == amount
        && (st.merchant.Kind().Inbound() && !card.frozen ==>
             w'.cards[card.id].balance + w'.books.Register() == card.balance + w.books.Register())
      else
        && w' == w.(books := w'.books)
        && w'.books.Register() == w.books.Register() && w'.books.moves == w.books.moves
  {
    if w.LoadReceipt(id).Ok? {
      var receipt := w.receipts[id];
      ChainTransfers(w.books, st.merchant, receipt.amount, receipt.account, now, draw);
      var (books, answer) := Chain(w.books, st.merchant, receipt.amount, receipt.account, now, draw);
      AnsweredTransfers(w, st, id, token, hold, draw, now, books, answer);
    }
  }

  lemma AnsweredTransfers(w: World, st: Settings, id: string, token: string, hold: bool, draw: PayDraw, now: int,
                          books: Merchant.Books, answer: Result<()>)
    requires Shelved(w) && Carded(w) && w.attached && w.LoadReceipt(id).Ok?
    requires Transferred(w.books, books, st.merchant, w.receipts[id].amount, w.receipts[id].account, draw, answer.Ok?)
    ensures var (w', r) := PayAnswered(w, st, id, token, hold, draw.txn, now, books, answer);
      if r.Ok? then
        && w.LoadCard(token).Ok? && answer.Ok? && w'.books == books
        && var amount, card := w.receipts[id].amount, w.LoadCard(token).value;
        && w'.cards == w.cards[card.id := card.Moved(-amount)] && card.id in w.cards && w.cards[card.id] == card
        && id in w'.receipts && w'.receipts[id].merchantTxn == draw.txn && w'.receipts[id].amount == amount
      else
        && w' == w.(books := w'.books)
        && w'.books.Register() == w.books.Register() && w'.books.moves == w.books.moves
  {
    if PayAnswered(w, st, id, token, hold, draw.txn, now, books, answer).1.Ok? {
      Loaded(w, token, id);
      PayReplaces(w, st, id, token, hold, draw.txn, now, books, answer);
    } else {
      PayRefused(w, st, id, token, hold, draw.txn, now, books, answer);
      RefusedLate(w, st, id, token, hold, draw.txn, now, books, answer);
    }
  }

  /** A pay that is refused after the merchant was asked was refused by the merchant. */
  lemma RefusedLate(w: World, st: Settings, id: string, token: string, hold: bool, txn: string, now: int,
                    books: Merchant.Books, answer: Result<()>)
    requires PayAnswered(w, st, id, token, hold, txn, now, books, answer).1.Err?
    ensures var w' := PayAnswered(w, st, id, token, hold, txn, now, books, answer).0; w' == w || answer.Err?
  {
  }

  // When a payment is answered.

  /**
    The merchant's side of a payment, as it can be seen before it: the account object leads to
    an order for the amount that no live transaction occupies, the register can settle the
    amount, and performing is not later than the confirmation window allows.
   */
  predicate Takes(b: Merchant.Books, st: Merchant.Settings, amount: int, account: map<string, string>, draw: PayDraw) {
    var order := Merchant.ResolveOrder(b, st, account, amount).1;
    && order.Ok? && order.value.amount == amount && Merchant.ActiveIndex(b.txs, order.value.id) == |b.txs|
    && Billing.CanApply(b.Register(), b.Stopped(), st.Kind(), amount)
    && draw.performNow - draw.createNow <= st.timeoutMillis
  }

  /** Whoever pays, the stand has an account once the order is found. */
  lemma ResolvedHasAccount(b: Merchant.Books, st: Merchant.Settings, account: map<string, string>, amount: int)
    requires Merchant.ResolveOrder(b, st, account, amount).1.Ok?
    ensures Merchant.ResolveOrder(b, st, account, amount).0.accounts != []
  {
  }

  /** After a check that was answered, the create of the same payment is answered unless the order is occupied. */
  lemma CheckedCreates(b: Merchant.Books, st: Merchant.Settings, p: Merchant.CreateParams, now: int)
    requires MerchantProofs.Shaped(b) && Merchant.TxIndex(b.txs, p.id) == |b.txs|
    requires Merchant.ResolveOrder(b, st, p.account, p.amount).0 == b
    requires Merchant.ResolveOrder(b, st, p.account, p.amount).1.Ok? && !b.Stopped()
    requires Merchant.ResolveOrder(b, st, p.account, p.amount).1.value.amount == p.amount
    ensures var order := Merchant.ResolveOrder(b, st, p.account, p.amount).1.value;
      Merchant.Create(b, st, p, now).1.Ok? <==> Merchant.ActiveIndex(b.txs, order.id) == |b.txs|
    ensures Merchant.Create(b, st, p, now).0.accounts == b.accounts
  {
    hide Merchant.ResolveOrder;
    MerchantProofs.AdmittedIsStored(b, st, p);
    hide MerchantProofs.Shaped;
  }

  /** Performing what was just created. */
  lemma CreatedPerforms(b: Merchant.Books, st: Merchant.Settings, i: nat, now: int)
    requires i < |b.txs| && Merchant.TxIndex(b.txs, b.txs[i].paymeID) == i && b.txs[i].state.Created? && b.accounts != []
    ensures Merchant.Perform(b, st, b.txs[i].paymeID, now).1.Ok? <==>
      now - b.txs[i].createTime <= st.timeoutMillis && Billing.CanApply(b.Register(), b.Stopped(), st.Kind(), b.txs[i].amount)
  {
    MerchantReplay.PerformSucceeds(b, st, b.txs[i].paymeID, now);
    hide Merchant.Perform;
  }

  lemma ChainSucceeds(b: Merchant.Books, st: Merchant.Settings, amount: int, account: map<string, string>,
                      time: int, draw: PayDraw)
    requires MerchantProofs.Shaped(b) && MerchantReplay.OwnersKnown(b) && Decimal.InInt64(b.nextOrder + 1)
    requires Merchant.TxIndex(b.txs, draw.txn) == |b.txs|
    ensures Chain(b, st, amount, account, time, draw).1.Ok? <==> Takes(b, st, amount, account, draw)
  {
    hide Merchant.ResolveOrder, Merchant.Create, Merchant.Perform, MerchantProofs.Shaped;
    MerchantProofs.ResolveShaped(b, st, account, amount);
    var (b1, order) := Merchant.ResolveOrder(b, st, account, amount);
    if order.Ok? && order.value.amount == amount && !b.Stopped() {
      MerchantReplay.ResolveTwice(b, st, account, amount);
      ResolvedHasAccount(b, st, account, amount);
      var p := Merchant.CreateParams(draw.txn, time, amount, account);
      CheckedCreates(b1, st, p, draw.createNow);
      CreatedLast(b, b1, st, p, draw.createNow);
      var (b2, created) := Merchant.Create(b1, st, p, draw.createNow);
      if created.Ok? {
        CreatedPerforms(b2, st, |b.txs|, draw.performNow);
      }
    }
  }

  /**
    A payment is answered exactly when the receipt is still to be paid, the card is on file,
    verified, not rigged and covers the amount, and the merchant takes it.
   */
  lemma PaySucceeds(w: World, st: Settings, id: string, token: string, hold: bool, draw: PayDraw, now: int)
    requires MerchantProofs.Shaped(w.books) && MerchantReplay.OwnersKnown(w.books)
    requires Decimal.InInt64(w.books.nextOrder + 1) && Merchant.TxIndex(w.books.txs, draw.txn) == |w.books.txs|
    ensures ReceiptsPay(w, st, id, token, hold, draw, now).1.Ok? <==>
      && id != "" && id in w.receipts && w.receipts[id].state.Created?
      && token in w.tokens && token != "" && w.tokens[token] in w.cards
      && (var card := w.cards[w.tokens[token]];
          !card.removed && card.outcome.Success? && card.verify && w.receipts[id].amount <= card.balance)
      && Takes(w.books, st.merchant, w.receipts[id].amount, w.receipts[id].account, draw)
  {
    hide Chain, Takes;
    if w.LoadReceipt(id).Ok? {
      ChainSucceeds(w.books, st.merchant, w.receipts[id].amount, w.receipts[id].account, now, draw);
    }
  }

  /**
    Cancelling gives the card its money back and leaves the merchant's books exactly as they
    were: the performed transaction and the register keep the amount.
   */
  lemma CancelLeavesMerchant(w: World, id: string, now: int)
    requires Shelved(w) && Carded(w) && w.attached && id in w.receipts && Walks(w, now)
    ensures var (w', r) := ReceiptsCancel(w, id, now); var was := w.receipts[id];
      && w'.books == w.books
      && (Charged(was.state) ==>
           && r.Ok? && was.cardID.Some? && was.cardID.value in w.cards
           && w'.cards == w.cards[was.cardID.value := w.cards[was.cardID.value].Moved(was.amount)])
      && (!Charged(was.state) ==> w'.cards == w.cards)
  {
    assert OnWalk(w.receipts[id], now);
    if ReceiptsCancel(w, id, now).1.Ok? {
      CancelReplaces(w, id, now);
      RefundedCards(w, ReceiptsCancel(w, id, now).1.value);
    }
  }

  // ---------- payouts in the register's tables ----------

  /** The row a payout still to be settled has: none, or its own, which never moved the register. */
  predicate OpenRow(txs: seq<Merchant.Tx>, txn: string, amount: int) {
    match RowOf(txs, txn)
    case None => true
    case Some(t) => (t.state.Created? || t.state == Merchant.State.Cancelled) && t.orderID == 0 && t.amount == amount
  }

  /**
    The row a settled payout has: performed, or, unless asked strictly, cancelled after that,
    for its amount, behind exactly one named move of the register.
   */
  predicate SettledRow(b: Merchant.Books, txn: string, amount: int, strict: bool) {
    match RowOf(b.txs, txn)
    case None => false
    case Some(t) =>
      && (t.state.Performed? || (!strict && t.state.CancelledAfterDo?))
      && t.amount == amount && Debits(b.moves, t.id) == 1
  }

  // What a merchant delivery does to the row it names.

  /** Performing this transaction would move the register: it is created, in time, and the register can settle it. */
  predicate Performs(b: Merchant.Books, st: Merchant.Settings, txn: string, now: int) {
    match RowOf(b.txs, txn)
    case None => false
    case Some(t) =>
      && t.state.Created? && now - t.createTime <= st.timeoutMillis
      && b.accounts != [] && Billing.CanApply(b.Register(), b.Stopped(), st.Kind(), t.amount)
  }

  lemma PerformRow(b: Merchant.Books, st: Merchant.Settings, txn: string, now: int)
    ensures RowOf(Merchant.Perform(b, st, txn, now).0.txs, txn) ==
      match RowOf(b.txs, txn)
      case None => None
      case Some(t) =>
        if Performs(b, st, txn, now) then Some(t.(state := Merchant.State.Performed, performTime := now))
        else if t.Expired(now, st.timeoutMillis) then Some(t.Ended(Merchant.REASON_TIMEOUT, now))
        else Some(t)
  {
    var i := Merchant.TxIndex(b.txs, txn);
    if i < |b.txs| {
      RowAfterSet(b.txs, i, b.txs[i].AfterPerform(now, st.timeoutMillis).0, txn);
    }
  }

  lemma CancelRow(b: Merchant.Books, st: Merchant.Settings, txn: string, reason: int, now: int)
    ensures RowOf(Merchant.Cancel(b, st, txn, reason, now).0.txs, txn) ==
      match RowOf(b.txs, txn)
      case None => None
      case Some(t) =>
        if t.state.IsFinal() || (t.state.Performed? && b.accounts == []) then Some(t) else Some(t.Ended(reason, now))
  {
    var i := Merchant.TxIndex(b.txs, txn);
    if i < |b.txs| {
      RowAfterSet(b.txs, i, b.txs[i].AfterCancel(reason, now), txn);
    }
  }

  lemma InsertRow(b: Merchant.Books, order: Billing.OrderRow, p: Merchant.CreateParams, now: int)
    ensures RowOf(Merchant.Insert(b, order, p, now).0.txs, p.id) ==
      if RowOf(b.txs, p.id).Some? || Merchant.ActiveIndex(b.txs, order.id) < |b.txs| then RowOf(b.txs, p.id)
      else Some(Merchant.NewTx(b, order, p, now))
  {
    if Merchant.TxIndex(b.txs, p.id) == |b.txs| {
      RowAfterAppend(b.txs, Merchant.NewTx(b, order, p, now), p.id);
    }
  }

  lemma CreateRow(b: Merchant.Books, st: Merchant.Settings, p: Merchant.CreateParams, now: int)
    requires MerchantProofs.Shaped(b)
    ensures var row := RowOf(Merchant.Create(b, st, p, now).0.txs, p.id);
      if RowOf(b.txs, p.id).Some? || Merchant.Admit(b, st, p).1.Err? then row == RowOf(b.txs, p.id)
      else row.Some? && row.value.orderID != 0
  {
    MerchantMoney.AdmitKeepsTransactions(b, st, p);
    MerchantProofs.AdmittedIsStored(b, st, p);
    var (b1, order) := Merchant.Admit(b, st, p);
    if RowOf(b.txs, p.id).None? && order.Ok? {
      InsertRow(b1, order.value, p, now);
    }
  }

  /** A delivery that spoils the row of a payout still to be settled: it performs it, or puts another in its place. */
  predicate DisturbsOpen(b: Merchant.Books, st: Merchant.Settings, call: Merchant.Call, now: int, txn: string) {
    match call
    case PerformCall(id) => id == txn && Performs(b, st, txn, now)
    case CreateCall(p) => p.id == txn && RowOf(b.txs, txn).None? && Merchant.Admit(b, st, p).1.Ok?
    case LateCall(order, p) =>
      && p.id == txn && RowOf(b.txs, txn).None?
      && Merchant.WasAdmitted(b, order, p) && Merchant.ActiveIndex(b.txs, order.id) == |b.txs|
    case _ => false
  }

  /** And one that takes back what a settled payout moved: any cancel of its transaction. */
  predicate DisturbsSettled(b: Merchant.Books, call: Merchant.Call, txn: string) {
    call.CancelCall? && call.id == txn && b.accounts != []
  }

  /** A merchant delivery leaves the row of an open payout open exactly when it does not disturb it. */
  lemma OpenStays(b: Merchant.Books, st: Merchant.Settings, call: Merchant.Call, now: int, txn: string, amount: int)
    requires MerchantProofs.Shaped(b) && OpenRow(b.txs, txn, amount)
    ensures OpenRow(Merchant.Step(b, st, call, now).txs, txn, amount) <==> !DisturbsOpen(b, st, call, now, txn)
  {
    hide RowOf, MerchantProofs.Shaped;
    if !Touches(call, txn) {
      MerchantRows(b, st, call, now, txn);
    } else {
      match call
      case CreateCall(p) => CreateRow(b, st, p, now);
      case LateCall(order, p) => if Merchant.WasAdmitted(b, order, p) { InsertRow(b, order, p, now); }
      case PerformCall(id) => PerformRow(b, st, id, now);
      case CancelCall(id, reason) => CancelRow(b, st, id, reason, now);
    }
  }

  /** And that of a settled one settled: always but for its cancel, and not even that makes it move the register twice. */
  lemma SettledStays(b: Merchant.Books, st: Merchant.Settings, call: Merchant.Call, now: int, txn: string, amount: int,
                     strict: bool)
    requires MerchantProofs.Shaped(b) && SettledRow(b, txn, amount, strict)
    ensures SettledRow(Merchant.Step(b, st, call, now), txn, amount, strict) <==> !(strict && DisturbsSettled(b, call, txn))
  {
    hide RowOf, MerchantProofs.Shaped;
    MerchantUnnamed(b, st, call, now, RowOf(b.txs, txn).value.id);
    if !Touches(call, txn) {
      MerchantRows(b, st, call, now, txn);
    } else {
      match call
      case CreateCall(p) => CreateRow(b, st, p, now);
      case LateCall(order, p) => if Merchant.WasAdmitted(b, order, p) { InsertRow(b, order, p, now); }
      case PerformCall(id) => PerformRow(b, st, id, now);
      case CancelCall(id, reason) => CancelRow(b, st, id, reason, now);
    }
  }

  lemma PerformedStays(txs: seq<Merchant.Tx>, txs': seq<Merchant.Tx>, orderID: int)
    requires |txs| <= |txs'| && MerchantProofs.HasPerformed(txs, orderID)
    requires forall i :: 0 <= i < |txs| && txs[i].orderID == orderID ==> txs'[i] == txs[i]
    ensures MerchantProofs.HasPerformed(txs', orderID)
  {
    var i :| 0 <= i < |txs| && txs[i].orderID == orderID && txs[i].state.Performed?;
    assert txs'[i] == txs[i];
  }

  /** A row that pays for no order may be added. */
  lemma AppendConsistent(b: Merchant.Books, t: Merchant.Tx)
    requires MerchantProofs.Consistent(b) && Merchant.TxIndex(b.txs, t.paymeID) == |b.txs|
    requires t.id == b.nextTx && 0 < t.amount && t.orderID == 0
    ensures MerchantProofs.Consistent(b.(txs := b.txs + [t], nextTx := b.nextTx + 1))
  {
    var txs := b.txs + [t];
    forall k | 0 <= k < |b.orders| && b.orders[k].status == Billing.Paid
      ensures MerchantProofs.HasPerformed(txs, b.orders[k].id)
    {
      PerformedStays(b.txs, txs, b.orders[k].id);
    }
  }

  /** A row that pays for no order may change its state. */
  lemma SetConsistent(b: Merchant.Books, i: nat, t: Merchant.Tx)
    requires MerchantProofs.Consistent(b) && i < |b.txs| && b.txs[i].orderID == 0
    requires t == b.txs[i].(state := t.state, performTime := t.performTime)
    ensures MerchantProofs.Consistent(b.SetTx(i, t))
  {
    var txs := b.txs[i := t];
    forall k | 0 <= k < |b.orders| && b.orders[k].status == Billing.Paid
      ensures MerchantProofs.HasPerformed(txs, b.orders[k].id)
    {
      PerformedStays(b.txs, txs, b.orders[k].id);
    }
  }

  lemma RowIDs(b: Merchant.Books, txn: string, other: string)
    requires MerchantProofs.Shaped(b) && txn != other && RowOf(b.txs, txn).Some? && RowOf(b.txs, other).Some?
    ensures RowOf(b.txs, txn).value.id != RowOf(b.txs, other).value.id
  {
  }

  lemma OpenKept(b: Merchant.Books, st: Merchant.Settings, opening: Merchant.Books, p: Payout)
    requires Kept(b, st, opening) && 0 < p.amount && Merchant.TxIndex(b.txs, p.txn) == |b.txs| && OpenPayout(b, p).Ok?
    ensures var b' := OpenPayout(b, p).value;
      && Kept(b', st, opening) && b'.moves == b.moves
      && RowOf(b'.txs, p.txn) == Some(PayoutTx(b, p))
      && forall txn :: txn != p.txn ==> RowOf(b'.txs, txn) == RowOf(b.txs, txn)
  {
    var t := PayoutTx(b, p);
    AppendConsistent(b, t);
    MerchantMoney.SettledAfterAppend(b.txs, t);
    OpenDebited(b, t);
    hide RowOf, MerchantProofs.Consistent, Debited, MerchantMoney.MovesExplained, Plain;
    forall txn ensures RowOf(b.txs + [t], txn) == if t.paymeID == txn then Some(t) else RowOf(b.txs, txn) {
      RowAfterAppend(b.txs, t, txn);
    }
    ExplainedStill(b, OpenPayout(b, p).value, st, |Plain(opening.moves)|);
  }

  /** A row more, or a row's state, leaves the unnamed moves explained. */
  lemma ExplainedStill(b: Merchant.Books, b': Merchant.Books, st: Merchant.Settings, n: nat)
    requires MerchantMoney.MovesExplained(Unsettled(b), st, n)
    requires Plain(b'.moves) == Plain(b.moves) && b'.trail == b.trail && |b.txs| <= |b'.txs|
    requires forall i :: 0 <= i < |b.txs| ==> b'.txs[i].id == b.txs[i].id && b'.txs[i].amount == b.txs[i].amount
    ensures MerchantMoney.MovesExplained(Unsettled(b'), st, n)
  {
    MerchantMoney.MovesStill(Unsettled(b), Unsettled(b'), st, n);
  }

  lemma OpenDebited(b: Merchant.Books, t: Merchant.Tx)
    requires Debited(b) && t.id == b.nextTx && t.state.Created?
    ensures Debited(b.(txs := b.txs + [t], nextTx := b.nextTx + 1))
  {
    Uncounted(b);
    assert forall i :: 0 <= i < |b.txs| ==> Counted(b, b.txs[i]);
  }

  /** The number under which the register settles a payout. */
  function NumberOf(b: Merchant.Books, txn: string): int {
    match RowOf(b.txs, txn)
    case None => b.nextTx
    case Some(t) => t.id
  }

  /** Settling is one move of the register, named, and one performed row. */
  lemma SettleReplaces(b: Merchant.Books, kind: Billing.Kind, p: Payout)
    requires SettlePayout(b, kind, p).Ok?
    ensures var b' := SettlePayout(b, kind, p).value;
      var moved := b.MoveRegister(b.Register() + kind.Signed(p.amount), Some(NumberOf(b, p.txn)));
      && b.accounts != [] && Billing.CanApply(b.Register(), b.Stopped(), kind, p.amount)
      && (RowOf(b.txs, p.txn).None? ==>
           b' == moved.(txs := b.txs + [PayoutTx(b, p).(state := Merchant.State.Performed, performTime := p.payTime)],
                        nextTx := b.nextTx + 1))
      && (RowOf(b.txs, p.txn).Some? ==>
           var i := Merchant.TxIndex(b.txs, p.txn);
           b' == moved.SetTx(i, b.txs[i].(state := Merchant.State.Performed, performTime := p.payTime)))
  {
  }

  /** Settling succeeds exactly when the register is there, is of a known kind, is not stopped, and holds what it owes. */
  lemma SettleSucceeds(b: Merchant.Books, kind: Billing.Kind, p: Payout)
    ensures SettlePayout(b, kind, p).Ok? <==> b.accounts != [] && Billing.CanApply(b.Register(), b.Stopped(), kind, p.amount)
  {
  }

  lemma MovedConsistent(b: Merchant.Books, balance: int, transaction: Option<int>)
    requires MerchantProofs.Consistent(b) && b.accounts != []
    ensures var b' := b.MoveRegister(balance, transaction);
      MerchantProofs.Consistent(b') && b'.Register() == balance && b'.txs == b.txs && b'.nextTx == b.nextTx
  {
  }

  lemma SettleConsistent(b: Merchant.Books, kind: Billing.Kind, p: Payout)
    requires MerchantProofs.Consistent(b) && 0 < p.amount && OpenRow(b.txs, p.txn, p.amount)
    requires SettlePayout(b, kind, p).Ok?
    ensures MerchantProofs.Consistent(SettlePayout(b, kind, p).value)
  {
    SettleReplaces(b, kind, p);
    var moved := b.MoveRegister(b.Register() + kind.Signed(p.amount), Some(NumberOf(b, p.txn)));
    MovedConsistent(b, b.Register() + kind.Signed(p.amount), Some(NumberOf(b, p.txn)));
    var i := Merchant.TxIndex(b.txs, p.txn);
    if i < |b.txs| {
      SetConsistent(moved, i, b.txs[i].(state := Merchant.State.Performed, performTime := p.payTime));
    } else {
      AppendConsistent(moved, PayoutTx(b, p).(state := Merchant.State.Performed, performTime := p.payTime));
    }
  }

  /** What settling does to the performed total: it gains the amount, unless the row was performed before. */
  lemma SettlePerformed(b: Merchant.Books, kind: Billing.Kind, p: Payout)
    requires SettlePayout(b, kind, p).Ok?
    ensures var b' := SettlePayout(b, kind, p).value;
      && b'.Register() == b.Register() + kind.Signed(p.amount)
      && b'.Performed() == b.Performed() +
           match RowOf(b.txs, p.txn)
           case None => p.amount
           case Some(t) => if t.state.Performed? then 0 else t.amount
  {
    SettleReplaces(b, kind, p);
    var t := PayoutTx(b, p).(state := Merchant.State.Performed, performTime := p.payTime);
    MerchantMoney.SettledAfterAppend(b.txs, t);
    var i := Merchant.TxIndex(b.txs, p.txn);
    if i < |b.txs| {
      MerchantMoney.SettledAfterSet(b.txs, i, b.txs[i].(state := Merchant.State.Performed, performTime := p.payTime));
    }
  }

  lemma SettleRows(b: Merchant.Books, kind: Billing.Kind, p: Payout)
    requires SettlePayout(b, kind, p).Ok?
    ensures var b' := SettlePayout(b, kind, p).value; var i := Merchant.TxIndex(b.txs, p.txn);
      && i < |b'.txs| && b'.txs[i].id == NumberOf(b, p.txn) && b'.txs[i].state.Performed?
      && b'.txs[i].amount == (match RowOf(b.txs, p.txn) case None => p.amount case Some(t) => t.amount)
      && |b'.txs| == (if i < |b.txs| then |b.txs| else |b.txs| + 1)
      && (forall k :: 0 <= k < |b.txs| && k != i ==> b'.txs[k] == b.txs[k])
      && (forall txn :: RowOf(b'.txs, txn) == if txn == p.txn then Some(b'.txs[i]) else RowOf(b.txs, txn))
  {
    SettleReplaces(b, kind, p);
    var b' := SettlePayout(b, kind, p).value;
    var i := Merchant.TxIndex(b.txs, p.txn);
    var t := b'.txs[i];
    forall txn ensures RowOf(b'.txs, txn) == if txn == p.txn then Some(t) else RowOf(b.txs, txn) {
      if i < |b.txs| {
        RowAfterSet(b.txs, i, t, txn);
      } else {
        RowAfterAppend(b.txs, t, txn);
      }
    }
  }

  lemma SettleMoves(b: Merchant.Books, kind: Billing.Kind, p: Payout, n: int)
    requires SettlePayout(b, kind, p).Ok?
    ensures var b' := SettlePayout(b, kind, p).value;
      && |b'.moves| == |b.moves| + 1 && b'.moves[..|b.moves|] == b.moves
      && b'.moves[|b.moves|].transaction == Some(NumberOf(b, p.txn))
      && b'.moves[|b.moves|].delta == kind.Signed(p.amount)
      && b'.trail == b.trail && Plain(b'.moves) == Plain(b.moves) && Named(b'.moves) == Named(b.moves) + 1
      && Debits(b'.moves, n) == Debits(b.moves, n) + if n == NumberOf(b, p.txn) then 1 else 0
  {
    SettleReplaces(b, kind, p);
    var b' := SettlePayout(b, kind, p).value;
    var e := b'.moves[|b.moves|];
    assert b'.moves == b.moves + [e];
    MovesAppend(b.moves, e, n);
    PlainAppend(b.moves, e);
  }

  /** Settling moves the register once for the payout's transaction, and for no other. */
  lemma SettleCounts(b: Merchant.Books, kind: Billing.Kind, p: Payout, n: int)
    requires SettlePayout(b, kind, p).Ok?
    ensures var b' := SettlePayout(b, kind, p).value;
      Forth(b', n) == Forth(b, n) + (if n == NumberOf(b, p.txn) then 1 else 0) && Back(b', n) == Back(b, n)
  {
    SettleMoves(b, kind, p, n);
  }

  lemma SettleDebited(b: Merchant.Books, kind: Billing.Kind, p: Payout)
    requires MerchantProofs.Consistent(b) && Debited(b) && OpenRow(b.txs, p.txn, p.amount)
    requires SettlePayout(b, kind, p).Ok?
    ensures var b' := SettlePayout(b, kind, p).value;
      && Debited(b') && SettledRow(b', p.txn, p.amount, true) && Named(b'.moves) == Named(b.moves) + 1
      && (forall txn :: txn != p.txn ==> RowOf(b'.txs, txn) == RowOf(b.txs, txn))
      && (forall n :: n != NumberOf(b, p.txn) ==> Debits(b'.moves, n) == Debits(b.moves, n))
  {
    SettleReplaces(b, kind, p);
    SettleRows(b, kind, p);
    hide SettlePayout, OpenPayout, Merchant.Settle;
    var b' := SettlePayout(b, kind, p).value;
    var number, i := NumberOf(b, p.txn), Merchant.TxIndex(b.txs, p.txn);
    forall n ensures Debits(b'.moves, n) == Debits(b.moves, n) + if n == number then 1 else 0 {
      SettleMoves(b, kind, p, n);
    }
    SettleMoves(b, kind, p, number);
    Uncounted(b);
    if i < |b.txs| {
      assert Counted(b, b.txs[i]);
    }
    forall k | 0 <= k < |b'.txs| ensures Counted(b', b'.txs[k]) {
      SettleCounts(b, kind, p, b'.txs[k].id);
      if k != i {
        assert Counted(b, b.txs[k]);
      }
    }
  }

  lemma SettleKept(b: Merchant.Books, st: Merchant.Settings, opening: Merchant.Books, p: Payout)
    requires Kept(b, st, opening) && 0 < p.amount && OpenRow(b.txs, p.txn, p.amount)
    requires SettlePayout(b, st.registerKind, p).Ok?
    ensures Kept(SettlePayout(b, st.registerKind, p).value, st, opening)
  {
    SettleConsistent(b, st.registerKind, p);
    SettlePerformed(b, st.registerKind, p);
    SettleDebited(b, st.registerKind, p);
    SettleSucceeds(b, st.registerKind, p);
    SettleMoves(b, st.registerKind, p, 0);
    SettleRows(b, st.registerKind, p);
    ExplainedStill(b, SettlePayout(b, st.registerKind, p).value, st, |Plain(opening.moves)|);
  }

  /** A row that would be settled for what it is not: it was performed already, or is of another amount. */
  predicate Mispaid(txs: seq<Merchant.Tx>, txn: string, amount: int) {
    match RowOf(txs, txn)
    case None => false
    case Some(t) => t.state.Performed? || t.amount != amount
  }

  /**
    Settling the same payout again is not refused while the register holds enough: it debits
    a second time.  The books reconcile after settling exactly when the row was not performed
    before and is of the payout's amount, so only the receipt's own state keeps a payout from
    being settled twice.
   */
  lemma SettleReconciles(b: Merchant.Books, st: Merchant.Settings, opening: int, p: Payout)
    requires MerchantMoney.Reconciled(b, st, opening) && p.amount != 0
    requires SettlePayout(b, st.registerKind, p).Ok?
    ensures MerchantMoney.Reconciled(SettlePayout(b, st.registerKind, p).value, st, opening) <==>
            !Mispaid(b.txs, p.txn, p.amount)
  {
    SettlePerformed(b, st.registerKind, p);
    SettleSucceeds(b, st.registerKind, p);
  }

  // ---------- payouts over whole runs ----------

  /** A payout whose transaction the register still answers for: not yet settled, or settled. */
  predicate Live(w: World, id: string) {
    id in w.receipts && w.receipts[id].payout && (w.receipts[id].state.Created? || id in w.completed)
  }

  /**
    On a stand whose payouts come from the register, the payout's row is as its receipt says;
    strictly, a settled one is still performed.
   */
  predicate Accounted(w: World, st: Settings, strict: bool, id: string)
    requires id in w.receipts
  {
    var r := w.receipts[id];
    st.ledger ==>
      && (r.payout && r.state.Created? ==> OpenRow(w.books.txs, r.merchantTxn, r.amount))
      && (id in w.completed ==> SettledRow(w.books, r.merchantTxn, r.amount, strict))
  }

  /** Every payout has a transaction of its own, in the state the payout says. */
  ghost predicate Payouts(w: World, st: Settings, strict: bool) {
    && (forall id :: id in w.receipts ==> Accounted(w, st, strict, id))
    && (forall id, other :: Live(w, id) && Live(w, other) && id != other ==>
         w.receipts[id].merchantTxn != w.receipts[other].merchantTxn)
  }

  /** The books say the same of this transaction. */
  ghost predicate SameRow(b: Merchant.Books, b': Merchant.Books, txn: string) {
    && RowOf(b'.txs, txn) == RowOf(b.txs, txn)
    && (RowOf(b.txs, txn).Some? ==> Debits(b'.moves, RowOf(b.txs, txn).value.id) == Debits(b.moves, RowOf(b.txs, txn).value.id))
  }

  /** Payouts that stay live stay the same payouts, and the books say the same of them. */
  ghost predicate PayoutsAside(w: World, w': World) {
    forall id :: Live(w', id) ==>
      && Live(w, id)
      && w'.receipts[id].merchantTxn == w.receipts[id].merchantTxn && w'.receipts[id].amount == w.receipts[id].amount
      && (w'.receipts[id].state.Created? ==> w.receipts[id].state.Created?)
      && (id in w'.completed ==> id in w.completed)
      && SameRow(w.books, w'.books, w.receipts[id].merchantTxn)
  }

  lemma AsidePayouts(w: World, w': World, st: Settings, strict: bool)
    requires Payouts(w, st, strict) && PayoutsAside(w, w') && Completions(w')
    ensures Payouts(w', st, strict)
  {
    forall id | id in w'.receipts ensures Accounted(w', st, strict, id) {
      if Live(w', id) {
        assert Accounted(w, st, strict, id);
      }
    }
  }

  /** A receipt is replaced by one that is no payout to be settled, unless it was already settled. */
  lemma ReplacedPayouts(w: World, w': World, st: Settings, strict: bool, r: ReceiptRow)
    requires Payouts(w, st, strict) && Replaced(w, w', r) && Completions(w) && Completions(w')
    requires w'.completed == w.completed
    requires !r.state.Created? && r.amount == w.receipts[r.id].amount
    requires r.id in w.completed ==> r.merchantTxn == w.receipts[r.id].merchantTxn
    requires forall id :: Live(w', id) ==> SameRow(w.books, w'.books, w.receipts[id].merchantTxn)
    ensures Payouts(w', st, strict)
  {
    forall id | Live(w', id)
      ensures Live(w, id) && w'.receipts[id].merchantTxn == w.receipts[id].merchantTxn
    {
    }
    AsidePayouts(w, w', st, strict);
  }

  // One lemma for each call.

  lemma PayPayouts(w: World, st: Settings, strict: bool, opening: Merchant.Books, id: string, token: string,
                   hold: bool, draw: PayDraw, now: int)
    requires Sound(w, now) && Payouts(w, st, strict) && Kept(w.books, st.merchant, opening) && FreshTxn(w, draw.txn)
    ensures var w' := ReceiptsPay(w, st, id, token, hold, draw, now).0;
      && Payouts(w', st, strict) && Kept(w'.books, st.merchant, opening)
      && Named(w'.books.moves) == Named(w.books.moves) && w'.completed == w.completed
  {
    if w.LoadReceipt(id).Ok? {
      var receipt := w.receipts[id];
      var (books, answer) := Chain(w.books, st.merchant, receipt.amount, receipt.account, now, draw);
      ChainKept(w.books, st.merchant, opening, receipt.amount, receipt.account, now, draw);
      ChainElsewhere(w.books, st.merchant, receipt.amount, receipt.account, now, draw, draw.txn + "x", 0);
      forall other | other in w.receipts ensures SameRow(w.books, books, w.receipts[other].merchantTxn) {
        var txn := w.receipts[other].merchantTxn;
        ChainElsewhere(w.books, st.merchant, receipt.amount, receipt.account, now, draw, txn,
                       if RowOf(w.books.txs, txn).Some? then RowOf(w.books.txs, txn).value.id else 0);
      }
      AnsweredPayouts(w, st, strict, id, token, hold, draw.txn, now, books, answer);
    }
  }

  lemma AnsweredPayouts(w: World, st: Settings, strict: bool, id: string, token: string, hold: bool, txn: string,
                        now: int,
                        books: Merchant.Books, answer: Result<()>)
    requires Sound(w, now) && Payouts(w, st, strict)
    requires forall other :: other in w.receipts ==> SameRow(w.books, books, w.receipts[other].merchantTxn)
    ensures var w' := PayAnswered(w, st, id, token, hold, txn, now, books, answer).0;
      Payouts(w', st, strict) && w'.books in {w.books, books} && w'.completed == w.completed
  {
    var (w', r) := PayAnswered(w, st, id, token, hold, txn, now, books, answer);
    if r.Ok? {
      Loaded(w, token, id);
      PayReplaces(w, st, id, token, hold, txn, now, books, answer);
      PaySound(w, st, id, token, hold, txn, now, books, answer);
      ReplacedPayouts(w, w', st, strict, r.value);
    } else {
      PayRefused(w, st, id, token, hold, txn, now, books, answer);
      AsidePayouts(w, w', st, strict);
    }
  }

  lemma ConfirmHoldPayouts(w: World, st: Settings, strict: bool, id: string, now: int)
    requires Sound(w, now) && Payouts(w, st, strict)
    ensures var w' := ReceiptsConfirmHold(w, id, now).0;
      Payouts(w', st, strict) && w'.books == w.books && w'.completed == w.completed
  {
    var (w', r) := ReceiptsConfirmHold(w, id, now);
    if r.Ok? {
      ConfirmHoldSound(w, id, now);
      hide Carded, Unstranded, Accounted;
      ReplacedPayouts(w, w', st, strict, r.value);
    }
  }

  lemma CancelPayouts(w: World, st: Settings, strict: bool, id: string, now: int)
    requires Sound(w, now) && Payouts(w, st, strict)
    ensures var w' := ReceiptsCancel(w, id, now).0;
      Payouts(w', st, strict) && w'.books == w.books && w'.completed == w.completed
  {
    var (w', r) := ReceiptsCancel(w, id, now);
    if r.Ok? {
      CancelReplaces(w, id, now);
      CancelSound(w, id, now);
      if w' != w {
        ReplacedPayouts(w, w', st, strict, r.value);
      }
    }
  }

  lemma RunStepPayouts(w: World, st: Settings, strict: bool, id: string, now: int)
    requires Sound(w, now) && Payouts(w, st, strict) && id in w.pending
    ensures var w' := RunStep(w, id, now);
      Payouts(w', st, strict) && w'.books == w.books && w'.completed == w.completed
  {
    RunStepReplaces(w, id, now);
    RunStepSound(w, id, now);
    AdvanceOnWalk(w.receipts[id], now);
    ReplacedPayouts(w, RunStep(w, id, now), st, strict, w.receipts[id].AfterAdvance(now));
  }

  lemma CreateReceiptPayouts(w: World, st: Settings, strict: bool, opening: Merchant.Books, amount: int,
                             account: map<string, string>, hold: bool,
                             id: string, now: int)
    requires Sound(w, now) && Payouts(w, st, strict) && Kept(w.books, st.merchant, opening) && id !in w.receipts && id != ""
    ensures var w' := ReceiptsCreate(w, st, amount, account, hold, id, now).0;
      && Payouts(w', st, strict) && Kept(w'.books, st.merchant, opening)
      && w'.books.moves == w.books.moves && w'.completed == w.completed
  {
    MerchantKept(w.books, st.merchant, opening, Merchant.CheckCall(account, amount), now);
    CheckQuiet(w.books, st.merchant, account, amount);
    ReceiptAdds(w, st, amount, account, hold, id, now);
    PlainPayouts(w, Merchant.CheckPerform(w.books, st.merchant, account, amount).0, st, strict,
                 NewReceipt(id, amount, account, now).(hold := hold));
  }

  lemma ReceiptAdds(w: World, st: Settings, amount: int, account: map<string, string>, hold: bool, id: string, now: int)
    ensures var books := Merchant.CheckPerform(w.books, st.merchant, account, amount).0;
      ReceiptsCreate(w, st, amount, account, hold, id, now).0 in
      {w, w.(books := books), w.AddReceipt(NewReceipt(id, amount, account, now).(hold := hold)).(books := books)}
  {
  }

  /** A receipt that is no payout changes nothing about payouts. */
  lemma PlainPayouts(w: World, books: Merchant.Books, st: Settings, strict: bool, r: ReceiptRow)
    requires Payouts(w, st, strict) && Completions(w) && r.id !in w.receipts && !r.payout
    requires books.moves == w.books.moves && books.txs == w.books.txs
    ensures Payouts(w.(books := books), st, strict) && Payouts(w.AddReceipt(r).(books := books), st, strict)
  {
    AsidePayouts(w, w.(books := books), st, strict);
    AsidePayouts(w, w.AddReceipt(r).(books := books), st, strict);
  }

  /** The merchant delivery spoils the row of a payout the register answers for. */
  ghost predicate DisturbsPayout(w: World, st: Settings, strict: bool, call: Merchant.Call, now: int, id: string)
    requires id in w.receipts
  {
    var txn := w.receipts[id].merchantTxn;
    if id in w.completed then strict && DisturbsSettled(w.books, call, txn)
    else w.receipts[id].payout && w.receipts[id].state.Created? && DisturbsOpen(w.books, st.merchant, call, now, txn)
  }

  /**
    The deliveries a payout does not survive: on a stand whose payouts come from the register,
    a perform that settles the transaction of an open payout, a create that takes its
    identifier before it has a row, and, strictly, a cancel of a settled payout's transaction.
   */
  ghost predicate Disturbs(w: World, st: Settings, strict: bool, call: Call, now: int) {
    st.ledger && call.ToMerchant? && exists id :: id in w.receipts && DisturbsPayout(w, st, strict, call.call, now, id)
  }

  lemma PayoutStays(w: World, st: Settings, strict: bool, call: Merchant.Call, now: int, id: string)
    requires Completions(w) && MerchantProofs.Shaped(w.books) && id in w.receipts && Accounted(w, st, strict, id)
    ensures Accounted(w.(books := Merchant.Step(w.books, st.merchant, call, now)), st, strict, id) <==>
            !(st.ledger && DisturbsPayout(w, st, strict, call, now, id))
  {
    hide MerchantProofs.Shaped, OpenRow, SettledRow, DisturbsOpen, DisturbsSettled, Merchant.Step;
    var r := w.receipts[id];
    if st.ledger && id in w.completed {
      SettledStays(w.books, st.merchant, call, now, r.merchantTxn, r.amount, strict);
    } else if st.ledger && r.payout && r.state.Created? {
      OpenStays(w.books, st.merchant, call, now, r.merchantTxn, r.amount);
    }
  }

  lemma MerchantPayouts(w: World, st: Settings, strict: bool, opening: Merchant.Books, call: Merchant.Call, now: int)
    requires Sound(w, now) && Payouts(w, st, strict) && Kept(w.books, st.merchant, opening)
    ensures var w' := w.(books := Merchant.Step(w.books, st.merchant, call, now));
      && Kept(w'.books, st.merchant, opening) && Named(w'.books.moves) == Named(w.books.moves)
      && (Payouts(w', st, strict) <==> !Disturbs(w, st, strict, ToMerchant(call), now))
  {
    hide Accounted, Kept, DisturbsPayout, Merchant.Step, MerchantProofs.Consistent, Shelved, Carded, Walks, Unstranded;
    MerchantKept(w.books, st.merchant, opening, call, now);
    KeptConsistent(w.books, st.merchant, opening);
    MerchantUnnamed(w.books, st.merchant, call, now, 0);
    forall id | id in w.receipts
      ensures Accounted(w.(books := Merchant.Step(w.books, st.merchant, call, now)), st, strict, id) <==>
              !(st.ledger && DisturbsPayout(w, st, strict, call, now, id))
    {
      assert Accounted(w, st, strict, id);
      PayoutStays(w, st, strict, call, now, id);
    }
    assert forall id :: Live(w.(books := Merchant.Step(w.books, st.merchant, call, now)), id) <==> Live(w, id);
  }

  lemma KeptConsistent(b: Merchant.Books, st: Merchant.Settings, opening: Merchant.Books)
    requires Kept(b, st, opening)
    ensures MerchantProofs.Consistent(b)
  {
  }

  lemma CreatePayoutPayouts(w: World, st: Settings, strict: bool, opening: Merchant.Books, amount: int,
                            token: string, account: map<string, string>,
                            id: string, txn: string, now: int)
    requires Sound(w, now) && Payouts(w, st, strict) && Kept(w.books, st.merchant, opening)
    requires id !in w.receipts && id != "" && FreshTxn(w, txn)
    ensures var w' := TransactionsCreate(w, st, amount, token, account, id, txn, now).0;
      && Payouts(w', st, strict) && Kept(w'.books, st.merchant, opening)
      && w'.books.moves == w.books.moves && w'.completed == w.completed
  {
    var p := Payout(txn, amount, account, now, 0);
    var answer := if st.ledger then OpenPayout(w.books, p) else Ok(w.books);
    var w' := CreateAnswered(w, amount, token, account, id, txn, now, answer).0;
    CreatePayoutAdds(w, amount, token, account, id, txn, now, answer);
    if w' != w {
      var r := NewPayout(w.LoadCard(token).value, amount, account, id, txn, now);
      if answer.Ok? && st.ledger {
        OpenKept(w.books, st.merchant, opening, p);
      }
      CreateBooks(w, amount, token, account, id, txn, now, answer);
      AddedPayouts(w, w'.books, st, strict, r);
    }
  }

  lemma CreateBooks(w: World, amount: int, token: string, account: map<string, string>, id: string, txn: string, now: int,
                    answer: Result<Merchant.Books>)
    ensures var w' := CreateAnswered(w, amount, token, account, id, txn, now, answer).0;
      w'.books == w.books || (answer.Ok? && w'.books == answer.value)
  {
  }

  lemma AddedPayouts(w: World, books: Merchant.Books, st: Settings, strict: bool, r: ReceiptRow)
    requires Payouts(w, st, strict) && Completions(w) && r.id !in w.receipts && r.state.Created?
    requires forall id :: id in w.receipts ==> w.receipts[id].merchantTxn != r.merchantTxn
    requires books.moves == w.books.moves && OpenRow(books.txs, r.merchantTxn, r.amount)
    requires forall txn :: txn != r.merchantTxn ==> RowOf(books.txs, txn) == RowOf(w.books.txs, txn)
    ensures Payouts(w.AddReceipt(r).(books := books), st, strict)
  {
    var w' := w.AddReceipt(r).(books := books);
    forall id | id in w'.receipts ensures Accounted(w', st, strict, id) {
      if id != r.id {
        assert Accounted(w, st, strict, id) && w'.receipts[id] == w.receipts[id];
      }
    }
  }

  lemma CompletePayouts(w: World, st: Settings, strict: bool, opening: Merchant.Books, id: string, token: string,
                        amount: int, now: int)
    requires Sound(w, now) && Payouts(w, st, strict) && Kept(w.books, st.merchant, opening)
    ensures var w' := TransactionsComplete(w, st, id, token, amount, now).0;
      && Payouts(w', st, strict) && Kept(w'.books, st.merchant, opening)
      && Named(w'.books.moves) - Named(w.books.moves) == if st.ledger then |w'.completed| - |w.completed| else 0
  {
    if w.LoadReceipt(id).Ok? {
      var answer := Settlement(w, st, w.receipts[id], now);
      if CompleteAnswered(w, id, token, amount, now, answer).1.Ok? && !w.receipts[id].state.Paid? {
        FirstComplete(w, st, strict, opening, id, token, amount, now);
      } else {
        CompleteRefused(w, id, token, amount, now, answer);
      }
    }
  }

  lemma FirstComplete(w: World, st: Settings, strict: bool, opening: Merchant.Books, id: string, token: string,
                      amount: int, now: int)
    requires Sound(w, now) && Payouts(w, st, strict) && Kept(w.books, st.merchant, opening)
    requires id in w.receipts && !w.receipts[id].state.Paid?
    requires CompleteAnswered(w, id, token, amount, now, Settlement(w, st, w.receipts[id], now)).1.Ok?
    ensures var w' := CompleteAnswered(w, id, token, amount, now, Settlement(w, st, w.receipts[id], now)).0;
      && Payouts(w', st, strict) && Kept(w'.books, st.merchant, opening) && |w'.completed| == |w.completed| + 1
      && Named(w'.books.moves) == Named(w.books.moves) + if st.ledger then 1 else 0
  {
    hide CompleteAnswered, Sound, Kept, SettlePayout, SettledRow, Live, OpenRow;
    CompleteEffect(w, id, token, amount, now, Settlement(w, st, w.receipts[id], now));
    assert Accounted(w, st, strict, id);
    hide Payouts;
    var (w', r) := CompleteAnswered(w, id, token, amount, now, Settlement(w, st, w.receipts[id], now));
    CompletedRecorded(w, w', st, strict, opening, r.value, PayoutOf(w.receipts[id].(payTime := now)));
  }

  lemma CompleteEffect(w: World, id: string, token: string, amount: int, now: int, answer: Result<Merchant.Books>)
    requires Sound(w, now) && id in w.receipts && !w.receipts[id].state.Paid?
    requires CompleteAnswered(w, id, token, amount, now, answer).1.Ok?
    ensures var (w', r) := CompleteAnswered(w, id, token, amount, now, answer); var was := w.receipts[id];
      && r.value == was.(state := Paid, payTime := now) && was.payout && was.state.Created? && 0 < was.amount && was.id == id
      && Replaced(w, w', r.value) && w'.completed == w.completed + {id} && id !in w.completed
      && answer == Ok(w'.books)
  {
    Loaded(w, token, id);
    CompleteReplaces(w, id, token, amount, now, answer);
    assert OnWalk(w.receipts[id], now);
    CompleteBooks(w, id, token, amount, now, answer);
  }

  /** The books after a first complete, from what it did to the receipt and what the register answered. */
  lemma CompletedRecorded(w: World, w': World, st: Settings, strict: bool, opening: Merchant.Books, r: ReceiptRow,
                          p: Payout)
    requires Payouts(w, st, strict) && Replaced(w, w', r) && w'.completed == w.completed + {r.id}
    requires Kept(w.books, st.merchant, opening) && 0 < p.amount
    requires r == w.receipts[r.id].(state := Paid, payTime := r.payTime) && r.payout && w.receipts[r.id].state.Created?
    requires p.txn == r.merchantTxn && p.amount == r.amount
    requires st.ledger ==> OpenRow(w.books.txs, p.txn, p.amount)
    requires Ok(w'.books) == if st.ledger then SettlePayout(w.books, st.merchant.registerKind, p) else Ok(w.books)
    ensures Payouts(w', st, strict) && Kept(w'.books, st.merchant, opening)
    ensures Named(w'.books.moves) == Named(w.books.moves) + if st.ledger then 1 else 0
  {
    if st.ledger {
      CompletedPayouts(w, w', st, strict, r, p);
      SettleKept(w.books, st.merchant, opening, p);
    } else {
      UnledgeredPayouts(w, w', st, strict, r);
    }
  }

  lemma CompleteBooks(w: World, id: string, token: string, amount: int, now: int, answer: Result<Merchant.Books>)
    requires CompleteAnswered(w, id, token, amount, now, answer).1.Ok? && !w.receipts[id].state.Paid?
    ensures answer.Ok? && CompleteAnswered(w, id, token, amount, now, answer).0.books == answer.value
  {
  }

  /** A complete that is refused, and a repeat of one that was not, change nothing at all. */
  lemma CompleteRefused(w: World, id: string, token: string, amount: int, now: int, answer: Result<Merchant.Books>)
    requires var r := CompleteAnswered(w, id, token, amount, now, answer).1;
      r.Err? || (id in w.receipts && w.receipts[id].state.Paid?)
    ensures CompleteAnswered(w, id, token, amount, now, answer).0 == w
  {
  }

  lemma CompletedPayouts(w: World, w': World, st: Settings, strict: bool, r: ReceiptRow, p: Payout)
    requires Payouts(w, st, strict) && Replaced(w, w', r) && w'.completed == w.completed + {r.id} && st.ledger
    requires MerchantProofs.Consistent(w.books) && Debited(w.books)
    requires r == w.receipts[r.id].(state := Paid, payTime := r.payTime) && r.payout && w.receipts[r.id].state.Created?
    requires p.txn == r.merchantTxn && p.amount == r.amount && OpenRow(w.books.txs, p.txn, p.amount)
    requires SettlePayout(w.books, st.merchant.registerKind, p) == Ok(w'.books)
    ensures Payouts(w', st, strict) && Named(w'.books.moves) == Named(w.books.moves) + 1
  {
    SettleDebited(w.books, st.merchant.registerKind, p);
    forall id | id in w'.receipts ensures Accounted(w', st, strict, id) {
      if id != r.id {
        OtherAccounted(w, w', st, strict, r, p, id);
      }
    }
    CompletedLive(w, w', r);
    hide Accounted, Live;
  }

  /** Settling one payout says nothing new about another. */
  lemma OtherAccounted(w: World, w': World, st: Settings, strict: bool, r: ReceiptRow, p: Payout, id: string)
    requires Payouts(w, st, strict) && Replaced(w, w', r) && w'.completed == w.completed + {r.id}
    requires MerchantProofs.Shaped(w.books) && id in w.receipts && id != r.id && Live(w, r.id)
    requires p.txn == w.receipts[r.id].merchantTxn && OpenRow(w.books.txs, p.txn, p.amount)
    requires forall txn :: txn != p.txn ==> RowOf(w'.books.txs, txn) == RowOf(w.books.txs, txn)
    requires forall n :: n != NumberOf(w.books, p.txn) ==> Debits(w'.books.moves, n) == Debits(w.books.moves, n)
    ensures Accounted(w', st, strict, id)
  {
    hide RowOf, Debits, MerchantProofs.Shaped;
    assert Accounted(w, st, strict, id) && w'.receipts[id] == w.receipts[id];
    if w.receipts[id].merchantTxn != p.txn {
      OthersNumber(w.books, p, w.receipts[id].merchantTxn);
    }
  }

  /** Settling a payout leaves the same payouts live, under the same transactions. */
  lemma CompletedLive(w: World, w': World, r: ReceiptRow)
    requires Replaced(w, w', r) && w'.completed == w.completed + {r.id}
    requires r == w.receipts[r.id].(state := Paid, payTime := r.payTime) && r.payout && w.receipts[r.id].state.Created?
    ensures forall id :: Live(w', id) ==> Live(w, id) && w'.receipts[id].merchantTxn == w.receipts[id].merchantTxn
  {
  }

  lemma OthersNumber(b: Merchant.Books, p: Payout, txn: string)
    requires MerchantProofs.Shaped(b) && txn != p.txn
    ensures RowOf(b.txs, txn).Some? ==> RowOf(b.txs, txn).value.id != NumberOf(b, p.txn)
  {
    if RowOf(b.txs, txn).Some? && RowOf(b.txs, p.txn).Some? {
      RowIDs(b, txn, p.txn);
    }
  }

  lemma UnledgeredPayouts(w: World, w': World, st: Settings, strict: bool, r: ReceiptRow)
    requires Payouts(w, st, strict) && Replaced(w, w', r) && w'.completed == w.completed + {r.id} && !st.ledger
    requires w'.books == w.books
    requires r == w.receipts[r.id].(state := Paid, payTime := r.payTime) && r.payout && w.receipts[r.id].state.Created?
    ensures Payouts(w', st, strict)
  {
    assert Live(w, r.id);
    forall id | id in w'.receipts ensures Accounted(w', st, strict, id) {
      assert Accounted(w, st, strict, id);
    }
    assert forall id :: Live(w', id) ==> Live(w, id) && w'.receipts[id].merchantTxn == w.receipts[id].merchantTxn;
  }

  /** Card methods change neither the books nor a receipt. */
  lemma CardsAside(w: World, st: Settings, call: Call, now: int)
    requires call.CreateCard? || call.GetVerifyCode? || call.Verify? || call.RemoveCard?
    ensures var w' := Step(w, st, call, now);
      w'.receipts == w.receipts && w'.completed == w.completed && w'.books == w.books
  {
  }

  /** The register's invariants and its payouts', with one named move for each settled payout. */
  ghost predicate Joined(w0: World, st: Settings, strict: bool, w: World) {
    && Kept(w.books, st.merchant, w0.books)
    && Payouts(w, st, strict)
    && Named(w.books.moves) == Named(w0.books.moves) + (if st.ledger then |w.completed| else 0)
  }

  /** A delivery keeps it exactly when it does not disturb a payout. */
  lemma StepJoined(w0: World, st: Settings, strict: bool, w: World, call: Call, now: int)
    requires Joined(w0, st, strict, w) && Sound(w, now) && Issued(w, call)
    ensures Joined(w0, st, strict, Step(w, st, call, now)) <==> !Disturbs(w, st, strict, call, now)
  {
    hide Kept, Shelved, Carded, Walks, Unstranded, DisturbsPayout;
    if call.CreateReceipt? || call.Pay? {
      PaymentJoined(w0, st, strict, w, call, now);
    } else if call.ToMerchant? {
      MerchantPayouts(w, st, strict, w0.books, call.call, now);
    } else if call.CreatePayout? || call.CompletePayout? {
      RegisterJoined(w0, st, strict, w, call, now);
    } else if call.ConfirmHold? || call.Cancel? || call.Tick? {
      WalkJoined(w0, st, strict, w, call, now);
    } else {
      CardsAside(w, st, call, now);
      AsidePayouts(w, Step(w, st, call, now), st, strict);
    }
  }

  lemma PaymentJoined(w0: World, st: Settings, strict: bool, w: World, call: Call, now: int)
    requires Joined(w0, st, strict, w) && Sound(w, now) && Issued(w, call) && (call.CreateReceipt? || call.Pay?)
    ensures Joined(w0, st, strict, Step(w, st, call, now))
  {
    match call
    case CreateReceipt(amount, account, hold, id) =>
      CreateReceiptPayouts(w, st, strict, w0.books, amount, account, hold, id, now);
    case Pay(id, token, hold, draw) => PayPayouts(w, st, strict, w0.books, id, token, hold, draw, now);
  }

  lemma RegisterJoined(w0: World, st: Settings, strict: bool, w: World, call: Call, now: int)
    requires Joined(w0, st, strict, w) && Sound(w, now) && Issued(w, call)
    requires call.CreatePayout? || call.CompletePayout?
    ensures Joined(w0, st, strict, Step(w, st, call, now))
  {
    match call
    case CreatePayout(amount, token, account, id, txn) =>
      CreatePayoutPayouts(w, st, strict, w0.books, amount, token, account, id, txn, now);
    case CompletePayout(id, token, amount) => CompletePayouts(w, st, strict, w0.books, id, token, amount, now);
  }

  lemma WalkJoined(w0: World, st: Settings, strict: bool, w: World, call: Call, now: int)
    requires Joined(w0, st, strict, w) && Sound(w, now) && (call.ConfirmHold? || call.Cancel? || call.Tick?)
    ensures Joined(w0, st, strict, Step(w, st, call, now))
  {
    hide Kept, Payouts, Sound, ReceiptsConfirmHold, ReceiptsCancel, RunStep;
    match call
    case ConfirmHold(id) => ConfirmHoldPayouts(w, st, strict, id, now);
    case Cancel(id) => CancelPayouts(w, st, strict, id, now);
    case Tick(id) => if id in w.pending { RunStepPayouts(w, st, strict, id, now); }
  }

  /** A register with no payment yet, whose history names only transactions numbered before. */
  predicate OpeningBooks(b: Merchant.Books) {
    && MerchantProofs.Fresh(b)
    && forall k :: 0 <= k < |b.moves| && b.moves[k].transaction.Some? ==> b.moves[k].transaction.value < b.nextTx
  }

  /** No delivery of the run disturbs a payout. */
  ghost predicate Undisturbed(w: World, st: Settings, strict: bool, deliveries: seq<Delivery>) {
    deliveries == [] ||
    var n := |deliveries| - 1;
    && Undisturbed(w, st, strict, deliveries[..n])
    && !Disturbs(Run(w, st, deliveries[..n]), st, strict, deliveries[n].call, deliveries[n].now)
  }

  /** The joined invariant holds after every delivery of the run. */
  ghost predicate AlwaysJoined(w: World, st: Settings, strict: bool, deliveries: seq<Delivery>) {
    && (deliveries != [] ==> AlwaysJoined(w, st, strict, deliveries[..|deliveries| - 1]))
    && Joined(w, st, strict, Run(w, st, deliveries))
  }

  /** Over any run of both APIs the joined invariant holds throughout exactly when nothing disturbs a payout. */
  lemma {:induction false} RunJoined(w: World, st: Settings, strict: bool, deliveries: seq<Delivery>)
    requires Opening(w) && OpeningBooks(w.books) && Proper(w, st, deliveries)
    ensures AlwaysJoined(w, st, strict, deliveries) <==> Undisturbed(w, st, strict, deliveries)
  {
    hide Step, Joined, Disturbs;
    if deliveries == [] {
      OpeningJoined(w, st, strict);
    } else {
      var n := |deliveries| - 1;
      RunJoined(w, st, strict, deliveries[..n]);
      if Undisturbed(w, st, strict, deliveries[..n]) {
        RunSound(w, st, deliveries[..n]);
        var before := Run(w, st, deliveries[..n]);
        LaterSound(before, Latest(deliveries[..n]), deliveries[n].now);
        StepJoined(w, st, strict, before, deliveries[n].call, deliveries[n].now);
      }
    }
  }

  lemma OpeningJoined(w: World, st: Settings, strict: bool)
    requires Opening(w) && OpeningBooks(w.books)
    ensures Joined(w, st, strict, w)
  {
  }

  /**
    Over every run of both APIs that disturbs no open payout, the register still reconciles
    with its performed transactions, payouts included, and never goes below zero; every
    transaction moved it as often as its state says, the merchant's own moves included, so
    none twice; its new moves are one for each settled payout and one for each apply and
    reverse of the trail, of the amount of the transaction that entry names; and every settled
    payout has a transaction for exactly its amount behind exactly one move, a named one, taken
    back once if that transaction was cancelled.  If no settled payout is disturbed either,
    each of those transactions is still performed and nothing took its move back.
   */
  lemma PayoutsDebitOnce(w: World, st: Settings, deliveries: seq<Delivery>, id: string, i: nat, k: nat)
    requires Opening(w) && OpeningBooks(w.books) && Proper(w, st, deliveries) && st.ledger
    requires Undisturbed(w, st, false, deliveries)
    ensures var w' := Run(w, st, deliveries); var b := w'.books;
      && MerchantMoney.Reconciled(b, st.merchant, w.books.Register())
      && (0 <= w.books.Register() ==> 0 <= b.Register())
      && (i < |b.txs| ==> Counted(b, b.txs[i]))
      && Named(b.moves) - Named(w.books.moves) == |w'.completed|
      && |b.moves| - |w.books.moves| == |w'.completed| + |MerchantMoney.Moving(b.trail)|
      && var was, plain, entries := Plain(w.books.moves), Plain(b.moves), MerchantMoney.Moving(b.trail);
      && |plain| == |was| + |entries|
      && (k < |entries| ==> MerchantMoney.Explains(b.txs, st.merchant, entries[k], plain[|was| + k]))
      && (id in w'.completed ==>
           && id in w'.receipts
           && SettledOnce(b, w'.receipts[id].merchantTxn, w'.receipts[id].amount, false)
           && (Undisturbed(w, st, true, deliveries) ==>
                SettledOnce(b, w'.receipts[id].merchantTxn, w'.receipts[id].amount, true)))
  {
    hide Joined, Run, Kept, MerchantMoney.Reconciled, MerchantMoney.Explains, Plain, Named, MerchantMoney.Moving,
         Counted, SettledOnce, Opening, OpeningBooks, Issued;
    RunSound(w, st, deliveries);
    RunJoined(w, st, false, deliveries);
    JoinedSays(w, st, false, Run(w, st, deliveries), id, i, k);
    if Undisturbed(w, st, true, deliveries) {
      RunJoined(w, st, true, deliveries);
      JoinedSays(w, st, true, Run(w, st, deliveries), id, i, k);
    }
  }

  /** Over the same runs every order still follows its transactions. */
  lemma OrdersFollow(w: World, st: Settings, deliveries: seq<Delivery>, k: nat)
    requires Opening(w) && OpeningBooks(w.books) && Proper(w, st, deliveries) && Undisturbed(w, st, false, deliveries)
    requires k < |Run(w, st, deliveries).books.orders|
    ensures var b := Run(w, st, deliveries).books; MerchantProofs.Follows(b, b.orders[k])
  {
    hide MerchantProofs.Consistent, MerchantProofs.Follows, Run, Opening, OpeningBooks, Proper, Payouts, Debited;
    RunJoined(w, st, false, deliveries);
    KeptConsistent(Run(w, st, deliveries).books, st.merchant, w.books);
    MerchantProofs.ConsistentFollows(Run(w, st, deliveries).books, k);
  }

  /** A settled transaction of this amount behind one move, that names it, and none back while it is performed. */
  predicate SettledOnce(b: Merchant.Books, txn: string, amount: int, strict: bool) {
    && SettledRow(b, txn, amount, strict)
    && var t := RowOf(b.txs, txn).value;
       Forth(b, t.id) == 1 && Back(b, t.id) == (if t.state.Performed? then 0 else 1)
  }

  lemma JoinedSays(w0: World, st: Settings, strict: bool, w: World, id: string, i: nat, k: nat)
    requires Joined(w0, st, strict, w) && Completions(w) && st.ledger
    ensures var b := w.books;
      && MerchantMoney.Reconciled(b, st.merchant, w0.books.Register())
      && (0 <= w0.books.Register() ==> 0 <= b.Register())
      && (i < |b.txs| ==> Counted(b, b.txs[i]))
      && Named(b.moves) - Named(w0.books.moves) == |w.completed|
      && |b.moves| - |w0.books.moves| == |w.completed| + |MerchantMoney.Moving(b.trail)|
      && var was, plain, entries := Plain(w0.books.moves), Plain(b.moves), MerchantMoney.Moving(b.trail);
      && |plain| == |was| + |entries|
      && (k < |entries| ==> MerchantMoney.Explains(b.txs, st.merchant, entries[k], plain[|was| + k]))
      && (id in w.completed ==> id in w.receipts && SettledOnce(b, w.receipts[id].merchantTxn, w.receipts[id].amount, strict))
  {
    PlainCounts(w.books.moves);
    PlainCounts(w0.books.moves);
    if id in w.completed {
      CompletedOnce(w, st, strict, id);
    }
  }

  lemma CompletedOnce(w: World, st: Settings, strict: bool, id: string)
    requires Payouts(w, st, strict) && Debited(w.books) && Completions(w) && st.ledger && id in w.completed
    ensures SettledOnce(w.books, w.receipts[id].merchantTxn, w.receipts[id].amount, strict)
  {
    assert Accounted(w, st, strict, id);
    assert Counted(w.books, w.books.txs[Merchant.TxIndex(w.books.txs, w.receipts[id].merchantTxn)]);
  }

  /** The guard of a first complete: what a caller can see before the call. */
  predicate Completable(w: World, st: Settings, id: string, token: string, amount: int) {
    && id != "" && id in w.receipts
    && var r := w.receipts[id];
    && r.payout && r.state.Created? && r.amount == amount && r.cardID.Some?
    && (if token == "" then r.cardID.value in w.cards
        else token in w.tokens && w.tokens[token] in w.cards && w.cards[w.tokens[token]].id == r.cardID.value)
    && (st.ledger ==>
         w.books.accounts != [] &&
         Billing.CanApply(w.books.Register(), w.books.Stopped(), st.merchant.registerKind, amount))
  }

  /**
    A first complete succeeds exactly when its payout, card, amount and register allow it;
    then it takes exactly the amount from the register of a payout kind and adds it to the
    unfrozen card.  Refused for funds, a wrong card or a wrong amount, or repeated once
    paid, it changes nothing.
   */
  lemma CompleteMoves(w: World, st: Settings, id: string, token: string, amount: int, now: int)
    requires Shelved(w) && Carded(w)
    ensures var (w', r) := TransactionsComplete(w, st, id, token, amount, now);
      && (id in w.receipts && !w.receipts[id].state.Paid? ==> (r.Ok? <==> Completable(w, st, id, token, amount)))
      && if r.Err? || w.receipts[id].state.Paid? then w' == w
         else
           && var c := w.receipts[id].cardID.value;
           && c in w.cards && w'.cards == w.cards[c := w.cards[c].Moved(amount)]
           && (st.ledger ==>
                && w'.books.Register() == w.books.Register() + st.merchant.registerKind.Signed(amount)
                && (!st.merchant.registerKind.Inbound() && !w.cards[c].frozen ==>
                     w'.cards[c].balance + w'.books.Register() == w.cards[c].balance + w.books.Register()))
           && (!st.ledger ==> w'.books == w.books)
  {
    if w.LoadReceipt(id).Ok? {
      var receipt := w.receipts[id];
      var answer := Settlement(w, st, receipt, now);
      var p := PayoutOf(receipt.(payTime := now));
      SettleSucceeds(w.books, st.merchant.registerKind, p);
      if !receipt.state.Paid? {
        CompleteSucceeds(w, id, token, amount, now, answer);
      }
      var r := CompleteAnswered(w, id, token, amount, now, answer).1;
      if r.Ok? && !receipt.state.Paid? {
        Loaded(w, token, id);
        CompleteReplaces(w, id, token, amount, now, answer);
        CompleteBooks(w, id, token, amount, now, answer);
        if st.ledger {
          SettlePerformed(w.books, st.merchant.registerKind, p);
        }
      } else {
        CompleteRefused(w, id, token, amount, now, answer);
      }
    }
  }

  lemma CompleteSucceeds(w: World, id: string, token: string, amount: int, now: int, answer: Result<Merchant.Books>)
    requires w.LoadReceipt(id).Ok? && !w.receipts[id].state.Paid?
    ensures CompleteAnswered(w, id, token, amount, now, answer).1.Ok? <==>
      var r := w.receipts[id];
      && r.payout && r.state.Created? && r.amount == amount && r.cardID.Some? && answer.Ok?
      && (if token == "" then r.cardID.value in w.cards
          else token in w.tokens && w.tokens[token] in w.cards && w.cards[w.tokens[token]].id == r.cardID.value)
  {
  }

  /**
    A payout the register refuses to open is refused to the caller, and its receipt is left
    behind, still to be settled.
   */
  lemma RefusedPayoutStays(w: World, st: Settings, amount: int, token: string, account: map<string, string>,
                           id: string, txn: string, now: int)
    requires 0 < amount && w.LoadCard(token).Ok? && w.LoadCard(token).value.Operable().Ok? && st.ledger
    requires OpenPayout(w.books, Payout(txn, amount, account, now, 0)).Err?
    ensures var (w', r) := TransactionsCreate(w, st, amount, token, account, id, txn, now);
      && r.Err? && w'.books == w.books && w'.order == w.order + [id]
      && id in w'.receipts && w'.receipts[id].payout && w'.receipts[id].state.Created?
      && (w.LoadCard(token).value.id in w.cards ==>
           (SettlePayout(w.books, st.merchant.registerKind, PayoutOf(w'.receipts[id].(payTime := now))).Ok? && id != "" ==>
             Completable(w', st, id, "", amount)))
  {
    if id != "" {
      SettleSucceeds(w.books, st.merchant.registerKind,
                     PayoutOf(NewPayout(w.LoadCard(token).value, amount, account, id, txn, now).(payTime := now)));
    }
  }

  /**
    Paying does not ask whether a receipt is a payout: one that was not settled is charged to
    the card like any other.
   */
  lemma PayoutPaysLikeAPayment(w: World, st: Settings, id: string, token: string, hold: bool, txn: string, now: int,
                               books: Merchant.Books)
    requires Shelved(w) && Carded(w) && w.attached && w.LoadReceipt(id).Ok? && w.LoadCard(token).Ok?
    requires w.receipts[id].payout && w.receipts[id].state.Created?
    requires w.LoadCard(token).value.Usable(w.receipts[id].amount).Ok?
    ensures var (w', r) := PayAnswered(w, st, id, token, hold, txn, now, books, Ok(())); var card := w.LoadCard(token).value;
      && r.Ok? && r.value.payout && r.value.state.Checking?
      && w'.cards == w.cards[card.id := card.Moved(-w.receipts[id].amount)]
  {
    Loaded(w, token, id);
    PayReplaces(w, st, id, token, hold, txn, now, books, Ok(()));
  }
}
