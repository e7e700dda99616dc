/**
  The money side of the merchant's runs: conservation and reconciliation, the audit trail's
  discipline, and why a repeated delivery is harmless.
 */
module MerchantMoney {
  import opened Common
  import opened Billing
  import opened Sums
  import opened MerchantModel
  import opened MerchantProofs

  // ---------- conservation ----------

  /** The register holds its opening figure plus what performed transactions moved. */
  predicate Reconciled(b: Books, st: Settings, opening: int) {
    b.Register() == opening + st.Kind().Signed(b.Performed())
  }

  lemma SettledAfterSet(txs: seq<Tx>, i: nat, t: Tx)
    requires i < |txs|
    ensures Sum(SettledAmounts(txs[i := t])) == Sum(SettledAmounts(txs)) - txs[i].Settled() + t.Settled()
  {
    assert SettledAmounts(txs[i := t]) == SettledAmounts(txs)[i := t.Settled()];
    SumUpdate(SettledAmounts(txs), i, t.Settled());
  }

  lemma SettledAfterAppend(txs: seq<Tx>, t: Tx)
    ensures Sum(SettledAmounts(txs + [t])) == Sum(SettledAmounts(txs)) + t.Settled()
  {
    assert SettledAmounts(txs + [t]) == SettledAmounts(txs) + [t.Settled()];
    SumAppend(SettledAmounts(txs), t.Settled());
  }

  lemma InsertReconciled(b: Books, st: Settings, opening: int, order: OrderRow, p: CreateParams, now: int)
    requires Reconciled(b, st, opening)
    ensures Reconciled(Insert(b, order, p, now).0, st, opening)
  {
    SettledAfterAppend(b.txs, NewTx(b, order, p, now));
  }

  lemma PerformReconciled(b: Books, st: Settings, opening: int, id: string, now: int)
    requires Reconciled(b, st, opening)
    ensures Reconciled(Perform(b, st, id, now).0, st, opening)
  {
    var i := TxIndex(b.txs, id);
    if i < |b.txs| && b.txs[i].state.Created? {
      var t' := b.txs[i].AfterPerform(now, st.timeoutMillis).0;
      SettledAfterSet(b.txs, i, t');
      if !b.txs[i].Expired(now, st.timeoutMillis) && Settle(b, st.Kind(), b.txs[i].amount, None).Ok? {
        assert Perform(b, st, id, now).0.Performed() == b.Performed() + b.txs[i].amount;
      }
    }
  }

  lemma CancelReconciled(b: Books, st: Settings, opening: int, id: string, reason: int, now: int)
    requires Reconciled(b, st, opening)
    ensures Reconciled(Cancel(b, st, id, reason, now).0, st, opening)
  {
    var i := TxIndex(b.txs, id);
    if i < |b.txs| {
      SettledAfterSet(b.txs, i, b.txs[i].AfterCancel(reason, now));
    }
  }

  lemma AdmitQuiet(b: Books, st: Settings, p: CreateParams)
    requires Shaped(b)
    ensures var b' := Admit(b, st, p).0;
      && b'.Register() == b.Register() && b'.moves == b.moves && b'.txs == b.txs && b'.nextTx == b.nextTx
  {
    ResolveShaped(b, st, p.account, p.amount);
  }

  lemma InsertQuiet(b: Books, order: OrderRow, p: CreateParams, now: int)
    ensures var b' := Insert(b, order, p, now).0;
      && b'.Register() == b.Register() && b'.moves == b.moves && b'.Performed() == b.Performed()
      && (b'.txs == b.txs ||
          (|b'.txs| == |b.txs| + 1 && b.txs == b'.txs[..|b.txs|] && b'.txs[|b.txs|].createTime == now &&
           b'.txs[|b.txs|].id == b.nextTx))
  {
    SettledAfterAppend(b.txs, NewTx(b, order, p, now));
    hide SettledAmounts, Sum;
  }

  /** Creating moves no money and adds at most one transaction, created now. */
  lemma CreateQuiet(b: Books, st: Settings, p: CreateParams, now: int)
    requires Shaped(b)
    ensures var b' := Create(b, st, p, now).0;
      && b'.Register() == b.Register() && b'.moves == b.moves && b'.Performed() == b.Performed()
      && (b'.txs == b.txs ||
          (|b'.txs| == |b.txs| + 1 && b.txs == b'.txs[..|b.txs|] && b'.txs[|b.txs|].createTime == now &&
           b'.txs[|b.txs|].id == b.nextTx))
  {
    if TxIndex(b.txs, p.id) == |b.txs| {
      AdmitQuiet(b, st, p);
      hide Admit, Insert;
      var (b1, order) := Admit(b, st, p);
      if order.Ok? {
        InsertQuiet(b1, order.value, p, now);
      }
    }
  }

  lemma StepReconciled(b: Books, st: Settings, opening: int, call: Call, now: int)
    requires Shaped(b) && Reconciled(b, st, opening)
    ensures Reconciled(Step(b, st, call, now), st, opening)
  {
    match call
    case CheckCall(account, amount) => ResolveShaped(b, st, account, amount);
    case CreateCall(p) => CreateQuiet(b, st, p, now);
    case LateCall(order, p) => InsertReconciled(b, st, opening, order, p, now);
    case PerformCall(id) => PerformReconciled(b, st, opening, id, now);
    case CancelCall(id, reason) => CancelReconciled(b, st, opening, id, reason, now);
    case BlockCall(_) =>
  }

  lemma SettledNonNegative(b: Books)
    requires Shaped(b)
    ensures 0 <= b.Performed()
  {
    SumNonNegative(SettledAmounts(b.txs));
  }

  /** On a register that pays out, only a perform takes money, and it is refused what is not there. */
  lemma PayoutSolvent(b: Books, st: Settings, call: Call, now: int)
    requires Shaped(b) && !st.Kind().Inbound() && 0 <= b.Register()
    ensures 0 <= Step(b, st, call, now).Register()
  {
    match call
    case CheckCall(account, amount) => ResolveShaped(b, st, account, amount);
    case CreateCall(p) => CreateQuiet(b, st, p, now);
    case LateCall(order, p) =>
    case PerformCall(id) => assert 0 <= Perform(b, st, id, now).0.Register();
    case CancelCall(id, reason) => assert 0 <= Cancel(b, st, id, reason, now).0.Register();
    case BlockCall(_) =>
  }

  /** A register that starts with something never owes anything, whichever way its kind moves money. */
  lemma StepSolvent(b: Books, st: Settings, opening: int, call: Call, now: int)
    requires Shaped(b) && Reconciled(b, st, opening) && 0 <= opening && 0 <= b.Register()
    ensures 0 <= Step(b, st, call, now).Register()
  {
    if st.Kind().Inbound() {
      StepShaped(b, st, call, now);
      StepReconciled(b, st, opening, call, now);
      SettledNonNegative(Step(b, st, call, now));
    } else {
      PayoutSolvent(b, st, call, now);
    }
  }

  /**
    Conservation over every run of deliveries, replays, expiries, refused settles and
    operator blocks: the register is its opening figure plus (topup) or minus (dividend,
    deposit) the performed amounts, and never below zero from a nonnegative opening.
   */
  lemma {:induction false} RunReconciled(b: Books, st: Settings, deliveries: seq<Delivery>)
    requires Fresh(b)
    ensures var b' := Run(b, st, deliveries);
      && Consistent(b')
      && Reconciled(b', st, b.Register())
      && (0 <= b.Register() ==> 0 <= b'.Register())
  {
    if deliveries != [] {
      var n := |deliveries| - 1;
      var before := Run(b, st, deliveries[..n]);
      RunReconciled(b, st, deliveries[..n]);
      StepConsistent(before, st, deliveries[n].call, deliveries[n].now);
      StepReconciled(before, st, b.Register(), deliveries[n].call, deliveries[n].now);
      if 0 <= b.Register() {
        StepSolvent(before, st, b.Register(), deliveries[n].call, deliveries[n].now);
      }
    }
  }

  // ---------- how a transaction evolves ----------

  predicate Reaches(s: State, s': State) {
    || s == s'
    || (s.Created? && (s'.Performed? || s' == State.Cancelled || s'.CancelledAfterDo?))
    || (s.Performed? && s'.CancelledAfterDo?)
  }

  /** Identity is fixed, states only move forward, and a state that has not moved keeps every field. */
  predicate Evolves(t: Tx, t': Tx) {
    && t' == t.(state := t'.state, reason := t'.reason, performTime := t'.performTime, cancelTime := t'.cancelTime)
    && Reaches(t.state, t'.state)
    && (t'.state == t.state ==> t' == t)
  }

  /** Every stored transaction evolves, and at most one is added, created now. */
  predicate Evolution(txs: seq<Tx>, txs': seq<Tx>, now: int) {
    && |txs| <= |txs'| <= |txs| + 1
    && (forall i :: 0 <= i < |txs| ==> Evolves(txs[i], txs'[i]))
    && (|txs| < |txs'| ==> txs'[|txs|].createTime == now && txs'[|txs|].state.Created?)
  }

  lemma InsertEvolves(b: Books, order: OrderRow, p: CreateParams, now: int)
    ensures Evolution(b.txs, Insert(b, order, p, now).0.txs, now)
  {
  }

  lemma PerformEvolves(b: Books, st: Settings, id: string, now: int)
    ensures Evolution(b.txs, Perform(b, st, id, now).0.txs, now)
  {
    var i := TxIndex(b.txs, id);
    if i < |b.txs| {
      var t' := b.txs[i].AfterPerform(now, st.timeoutMillis).0;
      assert Evolves(b.txs[i], t');
      assert Perform(b, st, id, now).0.txs in {b.txs, b.txs[i := t']};
    }
  }

  lemma CancelEvolves(b: Books, st: Settings, id: string, reason: int, now: int)
    ensures Evolution(b.txs, Cancel(b, st, id, reason, now).0.txs, now)
  {
    var i := TxIndex(b.txs, id);
    if i < |b.txs| {
      var t' := b.txs[i].AfterCancel(reason, now);
      assert Evolves(b.txs[i], t');
      assert Cancel(b, st, id, reason, now).0.txs in {b.txs, b.txs[i := t']};
    }
  }

  lemma CreateEvolves(b: Books, st: Settings, p: CreateParams, now: int)
    ensures Evolution(b.txs, Create(b, st, p, now).0.txs, now)
  {
    if TxIndex(b.txs, p.id) == |b.txs| {
      var (b1, order) := Admit(b, st, p);
      AdmitKeepsTransactions(b, st, p);
      if order.Ok? {
        InsertEvolves(b1, order.value, p, now);
      }
    }
  }

  lemma AdmitKeepsTransactions(b: Books, st: Settings, p: CreateParams)
    ensures Admit(b, st, p).0.txs == b.txs
  {
    ResolveCases(b, st, p.account, p.amount);
  }

  lemma StepEvolves(b: Books, st: Settings, call: Call, now: int)
    ensures Evolution(b.txs, Step(b, st, call, now).txs, now)
  {
    match call
    case CheckCall(account, amount) => ResolveCases(b, st, account, amount);
    case CreateCall(p) => CreateEvolves(b, st, p, now);
    case LateCall(order, p) => InsertEvolves(b, order, p, now);
    case PerformCall(id) => PerformEvolves(b, st, id, now);
    case CancelCall(id, reason) => CancelEvolves(b, st, id, reason, now);
    case BlockCall(_) =>
  }

  /** The same over a whole run: every transaction of its first state is still there, evolved. */
  lemma {:induction false} RunEvolves(b: Books, st: Settings, deliveries: seq<Delivery>, i: nat)
    requires i < |b.txs|
    ensures var b' := Run(b, st, deliveries);
      i < |b'.txs| && Evolves(b.txs[i], b'.txs[i])
  {
    if deliveries != [] {
      var n := |deliveries| - 1;
      RunEvolves(b, st, deliveries[..n], i);
      StepEvolves(Run(b, st, deliveries[..n]), st, deliveries[n].call, deliveries[n].now);
    }
  }

  // ---------- the statement ----------

  function Settlements(statement: seq<Tx>): int { Sum(SettledAmounts(statement)) }

  predicate InOrder(statement: seq<Tx>) {
    forall i, j :: 0 <= i < j < |statement| ==> Before(statement[i], statement[j])
  }

  lemma {:induction false} PlacedInOrder(statement: seq<Tx>, t: Tx)
    requires InOrder(statement)
    ensures InOrder(Placed(statement, t))
    ensures multiset(Placed(statement, t)) == multiset(statement) + multiset{t}
    ensures Settlements(Placed(statement, t)) == Settlements(statement) + t.Settled()
  {
    hide SettledAmounts, Sum;
    if statement == [] || Before(statement[|statement| - 1], t) {
      SettledAfterAppend(statement, t);
    } else {
      var init, last := statement[..|statement| - 1], statement[|statement| - 1];
      PlacedInOrder(init, t);
      assert statement == init + [last];
      SettledAfterAppend(init, last);
      SettledAfterAppend(Placed(init, t), last);
      AllBefore(init, Placed(init, t), t, last);
    }
  }

  lemma AllBefore(init: seq<Tx>, placed: seq<Tx>, t: Tx, last: Tx)
    requires multiset(placed) == multiset(init) + multiset{t}
    requires Before(t, last) && forall i :: 0 <= i < |init| ==> Before(init[i], last)
    ensures forall i :: 0 <= i < |placed| ==> Before(placed[i], last)
  {
    forall i | 0 <= i < |placed| ensures Before(placed[i], last) {
      assert placed[i] in multiset(placed);
      assert placed[i] == t || placed[i] in init;
    }
  }

  /** A statement lists exactly the period's transactions, in the order reconciliation requires, whatever the clock did. */
  lemma {:induction false} StatementExact(txs: seq<Tx>, from: int, to: int)
    ensures InOrder(Statement(txs, from, to))
    ensures forall t :: multiset(Statement(txs, from, to))[t] ==
                        if from <= t.createTime <= to then multiset(txs)[t] else 0
  {
    if txs != [] {
      var init, t := txs[..|txs| - 1], txs[|txs| - 1];
      assert txs == init + [t];
      StatementExact(init, from, to);
      PlacedInOrder(Statement(init, from, to), t);
    }
  }

  /** Two adjoining periods settle, between them, what their union does. */
  lemma {:induction false} StatementSplits(txs: seq<Tx>, from: int, mid: int, to: int)
    requires from <= mid <= to
    ensures Settlements(Statement(txs, from, to)) ==
            Settlements(Statement(txs, from, mid)) + Settlements(Statement(txs, mid + 1, to))
  {
    if txs != [] {
      var init, t := txs[..|txs| - 1], txs[|txs| - 1];
      StatementSplits(init, from, mid, to);
      StatementExact(init, from, to);
      PlacedInOrder(Statement(init, from, to), t);
      StatementExact(init, from, mid);
      PlacedInOrder(Statement(init, from, mid), t);
      StatementExact(init, mid + 1, to);
      PlacedInOrder(Statement(init, mid + 1, to), t);
    }
  }

  lemma {:induction false} StatementOfAllTime(txs: seq<Tx>, from: int, to: int)
    requires forall k :: 0 <= k < |txs| ==> from <= txs[k].createTime <= to
    ensures Settlements(Statement(txs, from, to)) == Sum(SettledAmounts(txs))
  {
    if txs != [] {
      var init, t := txs[..|txs| - 1], txs[|txs| - 1];
      assert txs == init + [t];
      SettledAfterAppend(init, t);
      StatementOfAllTime(init, from, to);
      StatementExact(init, from, to);
      PlacedInOrder(Statement(init, from, to), t);
    }
  }

  /** The statement of all time accounts for the whole distance between the register and its opening figure. */
  lemma StatementReconciles(b: Books, st: Settings, deliveries: seq<Delivery>, from: int, to: int)
    requires Fresh(b)
    requires var b' := Run(b, st, deliveries);
      forall k :: 0 <= k < |b'.txs| ==> from <= b'.txs[k].createTime <= to
    ensures var b' := Run(b, st, deliveries);
      b'.Register() - b.Register() == st.Kind().Signed(Settlements(Statement(b'.txs, from, to)))
  {
    RunReconciled(b, st, deliveries);
    StatementOfAllTime(Run(b, st, deliveries).txs, from, to);
  }

  // ---------- the audit trail ----------

  predicate IsApply(e: AuditEvent) {
    e.cause == PerformTransaction && e.to == Some(Performed) && !e.replay
  }

  predicate IsReverse(e: AuditEvent) {
    e.cause == CancelTransaction && e.to == Some(CancelledAfterDo) && !e.replay
  }

  function Applies(trail: seq<AuditEvent>, id: int): nat {
    if trail == [] then 0
    else
      var n := |trail| - 1;
      Applies(trail[..n], id) + if IsApply(trail[n]) && trail[n].transactionID == id then 1 else 0
  }

  function Reverses(trail: seq<AuditEvent>, id: int): nat {
    if trail == [] then 0
    else
      var n := |trail| - 1;
      Reverses(trail[..n], id) + if IsReverse(trail[n]) && trail[n].transactionID == id then 1 else 0
  }

  /** The entries that record a move of money, in order. */
  function Moving(trail: seq<AuditEvent>): seq<AuditEvent> {
    if trail == [] then []
    else
      var n := |trail| - 1;
      Moving(trail[..n]) + if IsApply(trail[n]) || IsReverse(trail[n]) then [trail[n]] else []
  }

  /** Every reverse comes after its transaction's only apply, and there is only one. */
  predicate Disciplined(trail: seq<AuditEvent>) {
    trail == [] ||
    var n := |trail| - 1;
    var before, e := trail[..n], trail[n];
    && Disciplined(before)
    && (IsApply(e) ==> Applies(before, e.transactionID) == 0 && Reverses(before, e.transactionID) == 0)
    && (IsReverse(e) ==> Applies(before, e.transactionID) == 1 && Reverses(before, e.transactionID) == 0)
  }

  /** The trail tells each transaction's state: applied once performed, reversed once cancelled after that. */
  predicate TrailAgrees(b: Books) {
    && Disciplined(b.trail)
    && (forall k :: 0 <= k < |b.trail| ==> b.trail[k].transactionID < b.nextTx)
    && (forall i :: 0 <= i < |b.txs| ==>
         && Applies(b.trail, b.txs[i].id) == (if b.txs[i].state.Performed? || b.txs[i].state.CancelledAfterDo? then 1 else 0)
         && Reverses(b.trail, b.txs[i].id) == (if b.txs[i].state.CancelledAfterDo? then 1 else 0))
  }

  lemma CountsAfterLog(trail: seq<AuditEvent>, e: AuditEvent, id: int)
    ensures Applies(trail + [e], id) == Applies(trail, id) + (if IsApply(e) && e.transactionID == id then 1 else 0)
    ensures Reverses(trail + [e], id) == Reverses(trail, id) + (if IsReverse(e) && e.transactionID == id then 1 else 0)
    ensures Moving(trail + [e]) == Moving(trail) + (if IsApply(e) || IsReverse(e) then [e] else [])
  {
    assert (trail + [e])[..|trail|] == trail;
  }

  lemma {:induction false} NoCountsBeyond(trail: seq<AuditEvent>, id: int)
    requires forall k :: 0 <= k < |trail| ==> trail[k].transactionID < id
    ensures Applies(trail, id) == 0 && Reverses(trail, id) == 0
  {
    if trail != [] {
      NoCountsBeyond(trail[..|trail| - 1], id);
    }
  }

  // ---------- what a delivery logs ----------

  /** Rows, trail and history as they were. */
  predicate Silent(b: Books, b': Books) {
    b'.txs == b.txs && b'.nextTx == b.nextTx && b'.trail == b.trail && b'.moves == b.moves
  }

  /** A created transaction under the next number, with its entry. */
  predicate Added(b: Books, b': Books) {
    && b'.nextTx == b.nextTx + 1 && b'.moves == b.moves
    && |b'.txs| == |b.txs| + 1 && b'.txs == b.txs + [b'.txs[|b.txs|]]
    && b'.txs[|b.txs|].id == b.nextTx && b'.txs[|b.txs|].state.Created?
    && |b'.trail| == |b.trail| + 1 && b'.trail == b.trail + [b'.trail[|b.trail|]]
    && (var e := b'.trail[|b.trail|]; e.transactionID == b.nextTx && !IsApply(e) && !IsReverse(e))
  }

  /** An entry about the transaction at i: its state moved the way the entry says, and the register with it. */
  predicate Entered(b: Books, b': Books, st: Settings, i: nat) {
    && i < |b.txs| && b'.nextTx == b.nextTx
    && |b'.txs| == |b.txs| && b'.txs == b.txs[i := b'.txs[i]]
    && b'.txs[i].id == b.txs[i].id && b'.txs[i].amount == b.txs[i].amount
    && |b'.trail| == |b.trail| + 1 && b'.trail == b.trail + [b'.trail[|b.trail|]]
    && var e, s, s' := b'.trail[|b.trail|], b.txs[i].state, b'.txs[i].state;
    && e.transactionID == b.txs[i].id
    && if IsApply(e) then s.Created? && s'.Performed? && OneMove(b.moves, b'.moves, st.Kind().Signed(b.txs[i].amount))
       else if IsReverse(e) then
         s.Performed? && s'.CancelledAfterDo? && OneMove(b.moves, b'.moves, -st.Kind().Signed(b.txs[i].amount))
       else b'.moves == b.moves && (s' == s || (s.Created? && s' == State.Cancelled))
  }

  /** One more move, of this much, that names no transaction. */
  predicate OneMove(moves: seq<BalanceEvent>, moves': seq<BalanceEvent>, delta: int) {
    |moves'| == |moves| + 1 && moves' == moves + [moves'[|moves|]] &&
    moves'[|moves|].delta == delta && moves'[|moves|].transaction.None?
  }

  predicate Logs(b: Books, b': Books, st: Settings) {
    Silent(b, b') || Added(b, b') || exists i: nat :: i < |b.txs| && Entered(b, b', st, i)
  }

  lemma ReplayCreateLogs(b: Books, st: Settings, i: nat)
    requires i < |b.txs|
    ensures Entered(b, ReplayCreate(b, i).0, st, i)
  {
  }

  lemma InsertLogs(b: Books, st: Settings, order: OrderRow, p: CreateParams, now: int)
    requires WasAdmitted(b, order, p)
    ensures Logs(b, Insert(b, order, p, now).0, st)
  {
    if !Duplicate(b, NewTx(b, order, p, now)) {
      assert Added(b, Insert(b, order, p, now).0);
    } else if TxIndex(b.txs, p.id) < |b.txs| {
      ReplayCreateLogs(b, st, TxIndex(b.txs, p.id));
    }
  }

  lemma PerformLogs(b: Books, st: Settings, id: string, now: int)
    ensures Logs(b, Perform(b, st, id, now).0, st)
  {
    var i := TxIndex(b.txs, id);
    if i < |b.txs| {
      assert Silent(b, Perform(b, st, id, now).0) || Entered(b, Perform(b, st, id, now).0, st, i);
    }
  }

  lemma CancelLogs(b: Books, st: Settings, id: string, reason: int, now: int)
    ensures Logs(b, Cancel(b, st, id, reason, now).0, st)
  {
    var i := TxIndex(b.txs, id);
    if i < |b.txs| {
      assert Silent(b, Cancel(b, st, id, reason, now).0) || Entered(b, Cancel(b, st, id, reason, now).0, st, i);
    }
  }

  lemma CreateLogs(b: Books, st: Settings, p: CreateParams, now: int)
    requires Shaped(b)
    ensures Logs(b, Create(b, st, p, now).0, st)
  {
    var i := TxIndex(b.txs, p.id);
    if i < |b.txs| {
      ReplayCreateLogs(b, st, i);
    } else {
      AdmittedIsStored(b, st, p);
      AdmitSilent(b, st, p);
      hide Admit, Insert, Shaped;
      var (b1, order) := Admit(b, st, p);
      if order.Ok? {
        InsertLogs(b1, st, order.value, p, now);
        SilentFirst(b, b1, Insert(b1, order.value, p, now).0, st);
      }
    }
  }

  lemma AdmitSilent(b: Books, st: Settings, p: CreateParams)
    ensures Silent(b, Admit(b, st, p).0)
  {
    ResolveCases(b, st, p.account, p.amount);
  }

  lemma SilentFirst(b: Books, b1: Books, b': Books, st: Settings)
    requires Silent(b, b1) && Logs(b1, b', st)
    ensures Logs(b, b', st)
  {
    if i: nat :| i < |b1.txs| && Entered(b1, b', st, i) {
      assert Entered(b, b', st, i);
    }
  }

  /** Every delivery is silent, adds a transaction, or enters what became of one. */
  lemma StepLogs(b: Books, st: Settings, call: Call, now: int)
    requires Shaped(b)
    ensures Logs(b, Step(b, st, call, now), st)
  {
    hide Logs;
    match call
    case CheckCall(account, amount) =>
      ResolveCases(b, st, account, amount);
      SilentLogs(b, Step(b, st, call, now), st);
    case CreateCall(p) => CreateLogs(b, st, p, now);
    case LateCall(order, p) =>
      if WasAdmitted(b, order, p) { InsertLogs(b, st, order, p, now); } else { SilentLogs(b, b, st); }
    case PerformCall(id) => PerformLogs(b, st, id, now);
    case CancelCall(id, reason) => CancelLogs(b, st, id, reason, now);
    case BlockCall(_) => SilentLogs(b, Step(b, st, call, now), st);
  }

  lemma SilentLogs(b: Books, b': Books, st: Settings)
    requires Silent(b, b')
    ensures Logs(b, b', st)
  {
  }

  // ---------- and what that keeps ----------

  lemma EnteredTrail(b: Books, b': Books, st: Settings, i: nat)
    requires TrailAgrees(b) && TxTable(b.txs, b.nextTx, b.nextOrder) && i < |b.txs| && Entered(b, b', st, i)
    ensures TrailAgrees(b')
  {
    var e := b'.trail[|b.trail|];
    forall k | 0 <= k < |b'.txs|
      ensures
        && Applies(b'.trail, b'.txs[k].id) ==
           (if b'.txs[k].state.Performed? || b'.txs[k].state.CancelledAfterDo? then 1 else 0)
        && Reverses(b'.trail, b'.txs[k].id) == (if b'.txs[k].state.CancelledAfterDo? then 1 else 0)
    {
      CountsAfterLog(b.trail, e, b'.txs[k].id);
    }
    CountsAfterLog(b.trail, e, b.txs[i].id);
    assert b'.trail[..|b'.trail| - 1] == b.trail;
  }

  lemma AddedTrail(b: Books, b': Books)
    requires TrailAgrees(b) && TxTable(b.txs, b.nextTx, b.nextOrder) && Added(b, b')
    ensures TrailAgrees(b')
  {
    var e := b'.trail[|b.trail|];
    forall k | 0 <= k < |b'.txs|
      ensures
        && Applies(b'.trail, b'.txs[k].id) ==
           (if b'.txs[k].state.Performed? || b'.txs[k].state.CancelledAfterDo? then 1 else 0)
        && Reverses(b'.trail, b'.txs[k].id) == (if b'.txs[k].state.CancelledAfterDo? then 1 else 0)
    {
      CountsAfterLog(b.trail, e, b'.txs[k].id);
      if k == |b.txs| {
        NoCountsBeyond(b.trail, b.nextTx);
      }
    }
    assert b'.trail[..|b'.trail| - 1] == b.trail;
  }

  lemma LogsTrail(b: Books, b': Books, st: Settings)
    requires TrailAgrees(b) && TxTable(b.txs, b.nextTx, b.nextOrder) && Logs(b, b', st)
    ensures TrailAgrees(b')
  {
    hide Added, Entered, TxTable;
    if Added(b, b') {
      AddedTrail(b, b');
    } else if i: nat :| i < |b.txs| && Entered(b, b', st, i) {
      EnteredTrail(b, b', st, i);
    }
  }

  /** The move is that of the entry's transaction: its amount, the way the register's kind and the entry say. */
  predicate Explains(txs: seq<Tx>, st: Settings, e: AuditEvent, m: BalanceEvent) {
    exists i: nat :: i < |txs| && txs[i].id == e.transactionID &&
      m.delta == if IsApply(e) then st.Kind().Signed(txs[i].amount) else -st.Kind().Signed(txs[i].amount)
  }

  /** Since the history was n long, its moves are one by one those of the trail's applies and reverses. */
  predicate MovesExplained(b: Books, st: Settings, n: nat) {
    && |b.moves| == n + |Moving(b.trail)|
    && forall k :: 0 <= k < |Moving(b.trail)| ==> Explains(b.txs, st, Moving(b.trail)[k], b.moves[n + k])
  }

  lemma ExplainsStill(txs: seq<Tx>, txs': seq<Tx>, st: Settings, e: AuditEvent, m: BalanceEvent)
    requires Explains(txs, st, e, m) && |txs| <= |txs'|
    requires forall i :: 0 <= i < |txs| ==> txs'[i].id == txs[i].id && txs'[i].amount == txs[i].amount
    ensures Explains(txs', st, e, m)
  {
    var i: nat :| i < |txs| && txs[i].id == e.transactionID &&
      m.delta == if IsApply(e) then st.Kind().Signed(txs[i].amount) else -st.Kind().Signed(txs[i].amount);
    assert txs'[i].id == e.transactionID;
  }

  /** What was explained stays explained while rows keep their numbers and amounts and the history grows. */
  lemma MovesStill(b: Books, b': Books, st: Settings, n: nat)
    requires MovesExplained(b, st, n) && |b.txs| <= |b'.txs| && b.moves <= b'.moves
    requires forall i :: 0 <= i < |b.txs| ==> b'.txs[i].id == b.txs[i].id && b'.txs[i].amount == b.txs[i].amount
    ensures forall k :: 0 <= k < |Moving(b.trail)| ==> Explains(b'.txs, st, Moving(b.trail)[k], b'.moves[n + k])
  {
    forall k | 0 <= k < |Moving(b.trail)| ensures Explains(b'.txs, st, Moving(b.trail)[k], b'.moves[n + k]) {
      assert b'.moves[n + k] == b.moves[n + k];
      ExplainsStill(b.txs, b'.txs, st, Moving(b.trail)[k], b.moves[n + k]);
    }
  }

  lemma EnteredExplained(b: Books, b': Books, st: Settings, n: nat, i: nat)
    requires MovesExplained(b, st, n) && i < |b.txs| && Entered(b, b', st, i)
    ensures MovesExplained(b', st, n)
  {
    var e := b'.trail[|b.trail|];
    CountsAfterLog(b.trail, e, 0);
    MovesStill(b, b', st, n);
    if IsApply(e) || IsReverse(e) {
      assert b'.txs[i].id == e.transactionID;
      assert Explains(b'.txs, st, e, b'.moves[|b.moves|]);
    }
  }

  lemma LogsExplained(b: Books, b': Books, st: Settings, n: nat)
    requires MovesExplained(b, st, n) && Logs(b, b', st)
    ensures MovesExplained(b', st, n)
  {
    if Added(b, b') {
      CountsAfterLog(b.trail, b'.trail[|b.trail|], 0);
      MovesStill(b, b', st, n);
    } else if i: nat :| i < |b.txs| && Entered(b, b', st, i) {
      EnteredExplained(b, b', st, n, i);
    }
  }

  lemma {:induction false} RunTrail(b: Books, st: Settings, deliveries: seq<Delivery>)
    requires Fresh(b)
    ensures var b' := Run(b, st, deliveries);
      Consistent(b') && TrailAgrees(b') && MovesExplained(b', st, |b.moves|)
  {
    hide Step, Logs, TrailAgrees, MovesExplained;
    if deliveries == [] {
      FreshTrail(b, st);
    } else {
      var n := |deliveries| - 1;
      RunTrail(b, st, deliveries[..n]);
      var before := Run(b, st, deliveries[..n]);
      StepConsistent(before, st, deliveries[n].call, deliveries[n].now);
      StepLogs(before, st, deliveries[n].call, deliveries[n].now);
      LogsTrail(before, Run(b, st, deliveries), st);
      LogsExplained(before, Run(b, st, deliveries), st, |b.moves|);
    }
  }

  lemma FreshTrail(b: Books, st: Settings)
    requires Fresh(b)
    ensures Consistent(b) && TrailAgrees(b) && MovesExplained(b, st, |b.moves|)
  {
  }

  lemma {:induction false} DisciplinedAtMostOnce(trail: seq<AuditEvent>, id: int)
    requires Disciplined(trail)
    ensures Reverses(trail, id) <= Applies(trail, id) <= 1
  {
    if trail != [] {
      DisciplinedAtMostOnce(trail[..|trail| - 1], id);
    }
  }

  lemma {:induction false} DisciplinedPrefix(trail: seq<AuditEvent>, n: nat)
    requires Disciplined(trail) && n <= |trail|
    ensures Disciplined(trail[..n])
  {
    if n < |trail| {
      DisciplinedPrefix(trail[..|trail| - 1], n);
      assert trail[..|trail| - 1][..n] == trail[..n];
    } else {
      assert trail[..n] == trail;
    }
  }

  /**
    Over every run each transaction applies at most once and reverses at most once, at no
    point of the trail reversed more often than applied; and the register's new moves are, in
    order, one for each of those entries: of the amount of the transaction it names, forth for
    an apply and back for a reverse.
   */
  lemma AtMostOnceEachWay(b: Books, st: Settings, deliveries: seq<Delivery>, id: int, n: nat, k: nat)
    requires Fresh(b)
    ensures var b' := Run(b, st, deliveries);
      && (n <= |b'.trail| ==> Reverses(b'.trail[..n], id) <= Applies(b'.trail[..n], id) <= 1)
      && |b'.moves| == |b.moves| + |Moving(b'.trail)|
      && (k < |Moving(b'.trail)| ==> Explains(b'.txs, st, Moving(b'.trail)[k], b'.moves[|b.moves| + k]))
  {
    RunTrail(b, st, deliveries);
    var trail := Run(b, st, deliveries).trail;
    if n <= |trail| {
      DisciplinedPrefix(trail, n);
      DisciplinedAtMostOnce(trail[..n], id);
    }
  }
}
