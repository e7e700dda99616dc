/**
  The history of balance moves, whoever wrote them: the Merchant API, a settled payout, or an
  operator in the console.  Every account's events form a chain from its opening figure to
  its balance.
 */
module RegisterHistory {
  import opened Common
  import opened Billing
  import opened MerchantModel
  import MerchantProofs
  import Subscribe = SubscribeModel

  datatype Write =
    | FromMerchant(call: Call, now: int)
    | FromPayout(payout: Subscribe.Payout)
    | FromConsole(id: int, op: Operation, amount: int)

  /** A refused settlement writes nothing. */
  function Written(b: Books, st: Settings, w: Write): Books {
    match w
    case FromMerchant(call, now) => Step(b, st, call, now)
    case FromPayout(payout) =>
      (match Subscribe.SettlePayout(b, st.registerKind, payout) case Ok(b') => b' case Err(_) => b)
    case FromConsole(id, op, amount) =>
      var (accounts, moves, _) := Changed(b.accounts, b.moves, id, op, amount);
      b.(accounts := accounts, moves := moves)
  }

  function Run(b: Books, st: Settings, writes: seq<Write>): Books {
    if writes == [] then b else Written(Run(b, st, writes[..|writes| - 1]), st, writes[|writes| - 1])
  }

  /** The one edit whose undo is wrong: an addition of something that comes out negative. */
  predicate Botched(b: Books, w: Write) {
    w.FromConsole? && w.op == Add && w.amount != 0 &&
    var i := AccountIndex(b.accounts, w.id);
    i < |b.accounts| && b.accounts[i].balance + w.amount < 0
  }

  predicate Sane(b: Books, st: Settings, writes: seq<Write>) {
    writes == [] ||
    var n := |writes| - 1;
    Sane(b, st, writes[..n]) && !Botched(Run(b, st, writes[..n]), writes[n])
  }

  /** An account the books did not start with opened empty. */
  function OpeningOf(openings: map<int, int>, id: int): int { if id in openings then openings[id] else 0 }

  /** Every account's events lead from its opening figure to its balance. */
  predicate Chains(rows: seq<AccountRow>, moves: seq<BalanceEvent>, openings: map<int, int>) {
    forall i :: 0 <= i < |rows| ==> Chain(HistoryOf(moves, rows[i].id), OpeningOf(openings, rows[i].id), rows[i].balance)
  }

  /** No opening figure and no event is about an account to come. */
  predicate Known(b: Books, openings: map<int, int>) {
    && MerchantProofs.AccountTable(b.accounts, b.nextAccount)
    && (forall id :: id in openings ==> id < b.nextAccount)
    && (forall k :: 0 <= k < |b.moves| ==> b.moves[k].accountID < b.nextAccount)
  }

  predicate Chained(b: Books, openings: map<int, int>) {
    Known(b, openings) && Chains(b.accounts, b.moves, openings)
  }

  /** The opening figures of the accounts on file. */
  function Figures(rows: seq<AccountRow>, openings: map<int, int>): map<int, int> {
    map i | i in set k | 0 <= k < |rows| :: rows[k].id :: OpeningOf(openings, i)
  }

  lemma ChainedIsExplained(b: Books, openings: map<int, int>)
    requires MerchantProofs.AccountTable(b.accounts, b.nextAccount)
    ensures Chains(b.accounts, b.moves, openings) <==> Explained(b.accounts, b.moves, Figures(b.accounts, openings))
  {
    hide Chain, HistoryOf;
    forall i | 0 <= i < |b.accounts|
      ensures b.accounts[i].id in Figures(b.accounts, openings)
      ensures Figures(b.accounts, openings)[b.accounts[i].id] == OpeningOf(openings, b.accounts[i].id)
    {
    }
  }

  /** The same accounts under other balances have the same opening figures. */
  lemma SameFigures(rows: seq<AccountRow>, rows': seq<AccountRow>, openings: map<int, int>)
    requires |rows'| == |rows| && forall k :: 0 <= k < |rows| ==> rows'[k].id == rows[k].id
    ensures Figures(rows', openings) == Figures(rows, openings)
  {
    assert (set k | 0 <= k < |rows'| :: rows'[k].id) == (set k | 0 <= k < |rows| :: rows[k].id);
  }

  // ---------- what a write does to accounts and events ----------

  /** A walk-in payer may have been added; nothing else about accounts changed. */
  predicate Grown(b: Books, b': Books) {
    b'.moves == b.moves &&
    ((b'.accounts == b.accounts && b'.nextAccount == b.nextAccount) ||
     (|b'.accounts| == |b.accounts| + 1 && b'.accounts[..|b.accounts|] == b.accounts && b'.nextAccount == b.nextAccount + 1 &&
      b'.accounts[|b.accounts|].id == b.nextAccount && b'.accounts[|b.accounts|].balance == 0))
  }

  /** The register moved once, with the event that explains it. */
  predicate Moved(b: Books, b': Books) {
    b.accounts != [] && b'.nextAccount == b.nextAccount && |b'.accounts| == |b.accounts| && |b'.moves| == |b.moves| + 1 &&
    var balance, transaction := b'.accounts[0].balance, b'.moves[|b.moves|].transaction;
    b'.accounts == b.MoveRegister(balance, transaction).accounts && b'.moves == b.MoveRegister(balance, transaction).moves
  }

  /** The register was stopped or started. */
  predicate Switched(b: Books, b': Books) {
    b.accounts != [] && b'.nextAccount == b.nextAccount && b'.moves == b.moves && |b'.accounts| == |b.accounts| &&
    b'.accounts == b.accounts[0 := b.accounts[0].(blocked := b'.accounts[0].blocked)]
  }

  lemma ResolveGrows(b: Books, st: Settings, account: map<string, string>, amount: int)
    ensures Grown(b, ResolveOrder(b, st, account, amount).0)
  {
    MerchantProofs.ResolveCases(b, st, account, amount);
  }

  lemma CreateGrows(b: Books, st: Settings, p: CreateParams, now: int)
    ensures Grown(b, Create(b, st, p, now).0)
  {
    ResolveGrows(b, st, p.account, p.amount);
    hide ResolveOrder;
  }

  lemma SettleMoves(b: Books, kind: Kind, amount: int, transaction: Option<int>)
    ensures Settle(b, kind, amount, transaction).Ok? ==> Moved(b, Settle(b, kind, amount, transaction).value)
    ensures Unsettle(b, kind, amount).Ok? ==> Moved(b, Unsettle(b, kind, amount).value)
  {
  }

  lemma PerformMoves(b: Books, st: Settings, id: string, now: int)
    ensures Grown(b, Perform(b, st, id, now).0) || Moved(b, Perform(b, st, id, now).0)
  {
    var i := TxIndex(b.txs, id);
    if i < |b.txs| {
      SettleMoves(b, st.Kind(), b.txs[i].amount, None);
    }
    hide Settle;
  }

  lemma CancelMoves(b: Books, st: Settings, id: string, reason: int, now: int)
    ensures Grown(b, Cancel(b, st, id, reason, now).0) || Moved(b, Cancel(b, st, id, reason, now).0)
  {
    var i := TxIndex(b.txs, id);
    if i < |b.txs| {
      SettleMoves(b, st.Kind(), b.txs[i].amount, None);
    }
    hide Unsettle;
  }

  lemma StepWrites(b: Books, st: Settings, call: Call, now: int)
    ensures var b' := Step(b, st, call, now); Grown(b, b') || Moved(b, b') || Switched(b, b')
  {
    match call
    case CheckCall(account, amount) => ResolveGrows(b, st, account, amount);
    case CreateCall(p) => CreateGrows(b, st, p, now);
    case LateCall(_, _) =>
    case PerformCall(id) => PerformMoves(b, st, id, now);
    case CancelCall(id, reason) => CancelMoves(b, st, id, reason, now);
    case BlockCall(_) =>
  }

  lemma PayoutWrites(b: Books, st: Settings, payout: Subscribe.Payout)
    ensures var b' := Written(b, st, FromPayout(payout)); Grown(b, b') || Moved(b, b')
  {
  }

  // ---------- and what that does to the chains ----------

  lemma {:induction false} NoHistoryBeyond(moves: seq<BalanceEvent>, id: int)
    requires forall k :: 0 <= k < |moves| ==> moves[k].accountID < id
    ensures HistoryOf(moves, id) == []
  {
    if moves != [] {
      NoHistoryBeyond(moves[..|moves| - 1], id);
    }
  }

  lemma GrownChained(b: Books, b': Books, openings: map<int, int>)
    requires Chained(b, openings) && Grown(b, b')
    ensures Chained(b', openings)
  {
    NoHistoryBeyond(b.moves, b.nextAccount);
    assert Chain([], 0, 0);
    hide Chain, HistoryOf, Chains;
    GrownKnown(b, b', openings);
    GrownChains(b, b', openings);
  }

  lemma GrownKnown(b: Books, b': Books, openings: map<int, int>)
    requires Known(b, openings) && Grown(b, b')
    ensures Known(b', openings)
  {
  }

  lemma GrownChains(b: Books, b': Books, openings: map<int, int>)
    requires Chains(b.accounts, b.moves, openings) && Grown(b, b') && b.nextAccount !in openings
    requires Chain(HistoryOf(b.moves, b.nextAccount), 0, 0)
    ensures Chains(b'.accounts, b'.moves, openings)
  {
    hide Chain, HistoryOf;
    forall i | 0 <= i < |b'.accounts|
      ensures Chain(HistoryOf(b'.moves, b'.accounts[i].id), OpeningOf(openings, b'.accounts[i].id), b'.accounts[i].balance)
    {
      if i < |b.accounts| {
        assert b'.accounts[i] == b.accounts[i];
      }
    }
  }

  lemma SwitchedChained(b: Books, b': Books, openings: map<int, int>)
    requires Chained(b, openings) && Switched(b, b')
    ensures Chained(b', openings)
  {
  }

  lemma MovedChained(b: Books, b': Books, openings: map<int, int>)
    requires Chained(b, openings) && Moved(b, b')
    ensures Chained(b', openings)
  {
    hide Chains, Explained, Figures;
    var balance, transaction := b'.accounts[0].balance, b'.moves[|b.moves|].transaction;
    MovedKnown(b, b', openings);
    ChainedIsExplained(b, openings);
    MoveKeepsChains(b.accounts, b.moves, Figures(b.accounts, openings), 0, Payment, balance, transaction);
    SameFigures(b.accounts, b'.accounts, openings);
    ChainedIsExplained(b', openings);
  }

  lemma MovedKnown(b: Books, b': Books, openings: map<int, int>)
    requires Known(b, openings) && Moved(b, b')
    ensures Known(b', openings)
  {
  }

  /** A console edit keeps the chains exactly when it is not the one whose undo is wrong. */
  lemma ConsoleChained(b: Books, st: Settings, openings: map<int, int>, id: int, op: Operation, amount: int)
    requires Chained(b, openings)
    ensures var w := FromConsole(id, op, amount); Chained(Written(b, st, w), openings) <==> !Botched(b, w)
  {
    hide Chains, Explained, Figures;
    var b' := Written(b, st, FromConsole(id, op, amount));
    ChainedIsExplained(b, openings);
    ChangeBalanceExplained(b.accounts, b.moves, Figures(b.accounts, openings), id, op, amount);
    ConsoleKeepsAccounts(b, st, id, op, amount);
    hide Changed;
    SameFigures(b.accounts, b'.accounts, openings);
    ChainedIsExplained(b', openings);
  }

  lemma ConsoleKeepsAccounts(b: Books, st: Settings, id: int, op: Operation, amount: int)
    requires MerchantProofs.AccountTable(b.accounts, b.nextAccount)
    requires forall k :: 0 <= k < |b.moves| ==> b.moves[k].accountID < b.nextAccount
    ensures var b' := Written(b, st, FromConsole(id, op, amount));
      && |b'.accounts| == |b.accounts| && (forall k :: 0 <= k < |b.accounts| ==> b'.accounts[k].id == b.accounts[k].id)
      && b'.nextAccount == b.nextAccount
      && (forall k :: 0 <= k < |b'.moves| ==> b'.moves[k].accountID < b'.nextAccount)
  {
    var i := AccountIndex(b.accounts, id);
    if i < |b.accounts| && !op.Other? {
      var balance := b.accounts[i].balance + (if op == Add then amount else -amount);
      WithoutLatestOf(b.moves, Move(b.accounts[i], Console, balance, None), id);
    }
  }

  lemma WithoutLatestOf(moves: seq<BalanceEvent>, e: BalanceEvent, id: int)
    requires e.accountID == id
    ensures WithoutLatest(moves + [e], id) == moves
  {
    assert (moves + [e])[..|moves|] == moves;
  }

  lemma WriteChained(b: Books, st: Settings, openings: map<int, int>, w: Write)
    requires Chained(b, openings) && !Botched(b, w)
    ensures Chained(Written(b, st, w), openings)
  {
    var b' := Written(b, st, w);
    match w
    case FromMerchant(call, now) =>
      StepWrites(b, st, call, now);
      AnyChained(b, b', openings);
    case FromPayout(payout) =>
      PayoutWrites(b, st, payout);
      AnyChained(b, b', openings);
    case FromConsole(id, op, amount) => ConsoleChained(b, st, openings, id, op, amount);
  }

  lemma AnyChained(b: Books, b': Books, openings: map<int, int>)
    requires Chained(b, openings) && (Grown(b, b') || Moved(b, b') || Switched(b, b'))
    ensures Chained(b', openings)
  {
    hide Chained, Grown, Moved, Switched;
    if Grown(b, b') {
      GrownChained(b, b', openings);
    } else if Moved(b, b') {
      MovedChained(b, b', openings);
    } else {
      SwitchedChained(b, b', openings);
    }
  }

  /**
    Over every run of payments, settled payouts and console edits, in any order, each
    account's events form a chain from its opening figure to its balance, as long as no edit
    adds something to a balance and leaves it negative.
   */
  lemma {:induction false} HistoryExplains(b: Books, st: Settings, openings: map<int, int>, writes: seq<Write>)
    requires Chained(b, openings) && Sane(b, st, writes)
    ensures Chained(Run(b, st, writes), openings)
  {
    hide Chained, Written;
    if writes != [] {
      HistoryExplains(b, st, openings, writes[..|writes| - 1]);
      WriteChained(Run(b, st, writes[..|writes| - 1]), st, openings, writes[|writes| - 1]);
    }
  }

  /** So every account's balance is its opening figure and the sum of its recorded moves. */
  lemma DeltasAddUp(b: Books, st: Settings, openings: map<int, int>, writes: seq<Write>, i: nat)
    requires Chained(b, openings) && Sane(b, st, writes) && i < |Run(b, st, writes).accounts|
    ensures var b' := Run(b, st, writes); var row := b'.accounts[i];
      row.balance == OpeningOf(openings, row.id) + Deltas(HistoryOf(b'.moves, row.id))
  {
    HistoryExplains(b, st, openings, writes);
    var b' := Run(b, st, writes);
    ChainTotal(HistoryOf(b'.moves, b'.accounts[i].id), OpeningOf(openings, b'.accounts[i].id), b'.accounts[i].balance);
  }

  // ---------- the run that reaches the wrong undo ----------

  /** What the console form asks for: one signed figure, whose sign is the direction. */
  function Asked(id: int, figure: int): Write {
    if figure < 0 then FromConsole(id, Subtract, -figure) else FromConsole(id, Add, figure)
  }

  /** While a balance is not negative, nothing the form can ask for has its undo go wrong. */
  lemma AskedSafely(b: Books, id: int, figure: int)
    ensures var i := AccountIndex(b.accounts, id);
      Botched(b, Asked(id, figure)) <==> 0 < figure && i < |b.accounts| && b.accounts[i].balance + figure < 0
    ensures var i := AccountIndex(b.accounts, id);
      (i < |b.accounts| ==> 0 <= b.accounts[i].balance) ==> !Botched(b, Asked(id, figure))
  {
  }

  /** A stand that takes money in, with one payer and one order of 100 to pay. */
  function TopupStand(): Settings { Settings(43200000, "login", Topup, false) }

  function Kiosk(balance: int, status: OrderStatus, txs: seq<Tx>, moves: seq<BalanceEvent>, trail: seq<AuditEvent>): Books {
    Books(txs, if txs == [] then 1 else 2, [AccountRow(1, "", "payer", "", balance, false)], 2, moves,
          [OrderRow(1, 1, 100, status, "")], 2, trail)
  }

  /** The order is paid, the operator takes the money out, the payment is cancelled, and the operator puts 50 in. */
  function Emptied(): seq<Write> {
    [FromMerchant(CreateCall(CreateParams("txn", 1, 100, map["login" := "payer"])), 1),
     FromMerchant(PerformCall("txn"), 2),
     Asked(1, -100),
     FromMerchant(CancelCall("txn", 5), 3),
     Asked(1, 50)]
  }

  function KioskTx(state: State, reason: Option<int>, performTime: int, cancelTime: int): Tx {
    Tx(1, "txn", 1, 1, map["login" := "payer"], 100, state, reason, 1, 1, performTime, cancelTime)
  }

  lemma KioskOpens()
    ensures MerchantProofs.Fresh(Kiosk(0, New, [], [], [])) && Chained(Kiosk(0, New, [], [], []), map[1 := 0])
  {
  }

  lemma KioskPaid(b: Books)
    requires b == Kiosk(0, New, [], [], [])
    ensures var b1 := Written(b, TopupStand(), Emptied()[0]);
      b1.txs == [KioskTx(State.Created, None, 0, 0)] && b1.accounts == b.accounts && b1.moves == []
    ensures var b2 := Written(Written(b, TopupStand(), Emptied()[0]), TopupStand(), Emptied()[1]);
      && b2.txs == [KioskTx(Performed, None, 2, 0)] && b2.accounts == [AccountRow(1, "", "payer", "", 100, false)]
      && b2.moves == [BalanceEvent(1, Payment, 100, 0, 100, None)]
  {
    KioskCreated(b);
    hide Create;
    KioskPerformed(Written(b, TopupStand(), Emptied()[0]));
  }

  lemma KioskCreated(b: Books)
    requires b == Kiosk(0, New, [], [], [])
    ensures var b1 := Written(b, TopupStand(), Emptied()[0]);
      b1.txs == [KioskTx(State.Created, None, 0, 0)] && b1.accounts == b.accounts && b1.moves == []
  {
  }

  lemma KioskPerformed(b: Books)
    requires b.txs == [KioskTx(State.Created, None, 0, 0)] && b.accounts == [AccountRow(1, "", "payer", "", 0, false)]
    requires b.moves == []
    ensures var b' := Written(b, TopupStand(), Emptied()[1]);
      && b'.txs == [KioskTx(Performed, None, 2, 0)] && b'.accounts == [AccountRow(1, "", "payer", "", 100, false)]
      && b'.moves == [BalanceEvent(1, Payment, 100, 0, 100, None)]
  {
  }

  lemma KioskOverdrawn(b: Books)
    requires b.txs == [KioskTx(Performed, None, 2, 0)] && b.accounts == [AccountRow(1, "", "payer", "", 100, false)]
    requires b.moves == [BalanceEvent(1, Payment, 100, 0, 100, None)]
    ensures var b1 := Written(b, TopupStand(), Emptied()[2]);
      && b1.accounts == [AccountRow(1, "", "payer", "", 0, false)] && b1.txs == b.txs
      && var b2 := Written(b1, TopupStand(), Emptied()[3]);
      && b2.accounts == [AccountRow(1, "", "payer", "", -100, false)] && |b2.moves| == 3
      && var b3 := Written(b2, TopupStand(), Emptied()[4]);
      && Botched(b2, Emptied()[4])
      && b3.accounts == [AccountRow(1, "", "payer", "", 0, false)] && b3.moves == b2.moves
  {
    var b1 := Written(b, TopupStand(), Emptied()[2]);
    var b2 := Written(b1, TopupStand(), Emptied()[3]);
    assert b2.accounts == [AccountRow(1, "", "payer", "", -100, false)];
    WithoutLatestOf(b2.moves, Move(b2.accounts[0], Console, -50, None), 1);
  }

  /**
    The wrong undo is reached from a fresh stand: a payment cancelled after the operator took
    its money out leaves the balance at -100, and putting 50 in is then refused, with the
    balance left at nothing where the events lead to -100.
   */
  lemma UndoGoesWrong()
    ensures var b, openings, writes := Kiosk(0, New, [], [], []), map[1 := 0], Emptied();
      && MerchantProofs.Fresh(b) && Chained(b, openings) && Sane(b, TopupStand(), writes[..4])
      && Run(b, TopupStand(), writes[..4]).Register() == -100 && Chained(Run(b, TopupStand(), writes[..4]), openings)
      && Botched(Run(b, TopupStand(), writes[..4]), writes[4])
      && Run(b, TopupStand(), writes).Register() == 0 && !Chained(Run(b, TopupStand(), writes), openings)
  {
    hide Chained, Written, Run, Sane, MerchantProofs.Fresh, Botched;
    var b, writes := Kiosk(0, New, [], [], []), Emptied();
    KioskOpens();
    KioskPaid(b);
    FiveWrites(b, TopupStand(), writes);
    KioskOverdrawn(Run(b, TopupStand(), writes[..2]));
    HistoryExplains(b, TopupStand(), map[1 := 0], writes[..4]);
    ConsoleChained(Run(b, TopupStand(), writes[..4]), TopupStand(), map[1 := 0], 1, Add, 50);
  }

  /** A run of five unrolled; only a last-but-two console edit and the last can be botched. */
  lemma FiveWrites(b: Books, st: Settings, writes: seq<Write>)
    requires |writes| == 5 && writes[0].FromMerchant? && writes[1].FromMerchant? && writes[3].FromMerchant?
    requires writes[2].FromConsole? && writes[2].op == Subtract
    ensures var w1 := Written(b, st, writes[0]); var w2 := Written(w1, st, writes[1]);
      var w3 := Written(w2, st, writes[2]); var w4 := Written(w3, st, writes[3]);
      && Run(b, st, writes[..2]) == w2 && Run(b, st, writes[..4]) == w4
      && Run(b, st, writes) == Written(w4, st, writes[4])
      && Sane(b, st, writes[..4])
  {
    hide Written;
    assert writes[..4][..3] == writes[..3] && writes[..3][..2] == writes[..2];
    assert writes[..2][..1] == writes[..1] && writes[..1][..0] == [];
    assert Run(b, st, writes[..1]) == Written(b, st, writes[0]);
    assert Run(b, st, writes[..2]) == Written(Run(b, st, writes[..1]), st, writes[1]);
    assert Run(b, st, writes[..3]) == Written(Run(b, st, writes[..2]), st, writes[2]);
    assert Sane(b, st, writes[..1]) && Sane(b, st, writes[..2]) && Sane(b, st, writes[..3]);
  }
}
