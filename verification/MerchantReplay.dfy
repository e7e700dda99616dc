/**
  Why the Merchant API may be called again: repeated deliveries answer what was answered
  and change nothing, and asking for an order twice names the same order.
 */
module MerchantReplay {
  import opened Common
  import opened Billing
  import opened MerchantModel
  import opened MerchantProofs
  import opened MerchantMoney
  import Decimal

  /** Nothing but the audit trail differs. */
  predicate SameTables(b: Books, b': Books) { b' == b.(trail := b'.trail) }

  lemma TxIndexIs(b: Books, i: nat)
    requires Shaped(b) && i < |b.txs|
    ensures TxIndex(b.txs, b.txs[i].paymeID) == i
  {
  }

  /** A stored transaction is found at the same place after any run, evolved. */
  lemma StillThere(b: Books, st: Settings, deliveries: seq<Delivery>, i: nat)
    requires Shaped(b) && i < |b.txs|
    ensures var b' := Run(b, st, deliveries);
      i < |b'.txs| && Evolves(b.txs[i], b'.txs[i]) && TxIndex(b'.txs, b.txs[i].paymeID) == i
  {
    RunEvolves(b, st, deliveries, i);
    RunShaped(b, st, deliveries);
    TxIndexIs(Run(b, st, deliveries), i);
  }

  /**
    Once a create was answered, any later create of the same transaction changes no table
    and, while the transaction is still created, gets the first answer again, whatever else
    ran in between and whatever the repeat's other parameters and clock.  So does an insert
    that was already under way and lost the race.
   */
  lemma CreateReplays(b: Books, st: Settings, p: CreateParams, now: int, deliveries: seq<Delivery>,
                      p': CreateParams, order: OrderRow, now': int)
    requires Shaped(b) && Create(b, st, p, now).1.Ok? && p'.id == p.id
    ensures var (b1, r) := Create(b, st, p, now);
      var b2 := Run(b1, st, deliveries);
      var (b3, again) := Create(b2, st, p', now');
      var i := TxIndex(b2.txs, p.id);
      && i < |b2.txs|
      && SameTables(b2, b3)
      && again == (if b2.txs[i].state.Created? then r else Err(CannotPerform))
      && Insert(b2, order, p', now') == (b3, again)
  {
    var (b1, r) := Create(b, st, p, now);
    StepShaped(b, st, CreateCall(p), now);
    ResolveCases(b, st, p.account, p.amount);
    var i := TxIndex(b1.txs, p.id);
    assert b1 == Step(b, st, CreateCall(p), now);
    CreateStores(b, st, p, now);
    StillThere(b1, st, deliveries, i);
  }

  /** An answered create has stored what it answered. */
  lemma CreateStores(b: Books, st: Settings, p: CreateParams, now: int)
    requires Shaped(b) && Create(b, st, p, now).1.Ok?
    ensures var (b1, r) := Create(b, st, p, now);
      var i := TxIndex(b1.txs, p.id);
      i < |b1.txs| && b1.txs[i].state.Created? && r == Ok(CreateResultOf(b1.txs[i]))
  {
    AdmitKeepsTransactions(b, st, p);
    hide Admit;
    if TxIndex(b.txs, p.id) == |b.txs| {
      var (b0, order) := Admit(b, st, p);
      var b1 := Create(b, st, p, now).0;
      assert b1.txs == b0.txs + [NewTx(b0, order.value, p, now)];
      assert b1.txs[|b.txs|].paymeID == p.id;
    }
  }

  /** A perform succeeds exactly for a performed transaction, or a created one in time that the register can settle. */
  lemma PerformSucceeds(b: Books, st: Settings, id: string, now: int)
    ensures Perform(b, st, id, now).1.Ok? <==>
      var i := TxIndex(b.txs, id);
      && i < |b.txs|
      && (b.txs[i].state.Performed? ||
          (b.txs[i].state.Created? && now - b.txs[i].createTime <= st.timeoutMillis && b.accounts != [] &&
           CanApply(b.accounts[0].balance, b.accounts[0].blocked, st.Kind(), b.txs[i].amount)))
  {
  }

  /** An answered perform has stored what it answered. */
  lemma PerformStores(b: Books, st: Settings, id: string, now: int)
    requires Perform(b, st, id, now).1.Ok?
    ensures var (b1, r) := Perform(b, st, id, now);
      var i := TxIndex(b.txs, id);
      && i < |b1.txs| && b1.txs[i].paymeID == id && b1.txs[i].state.Performed?
      && r == Ok(PerformResult(Number(b1.txs[i]), b1.txs[i].performTime, b1.txs[i].state))
  {
  }

  lemma PerformOfPerformed(b: Books, st: Settings, i: nat, deliveries: seq<Delivery>, now: int)
    requires Shaped(b) && i < |b.txs| && b.txs[i].state.Performed?
    ensures var b' := Run(b, st, deliveries);
      var (b'', r) := Perform(b', st, b.txs[i].paymeID, now);
      && i < |b'.txs| && i == TxIndex(b'.txs, b.txs[i].paymeID)
      && SameTables(b', b'')
      && r == (if b'.txs[i].state.Performed?
               then Ok(PerformResult(Number(b.txs[i]), b.txs[i].performTime, b.txs[i].state))
               else Err(CannotPerform))
  {
    StillThere(b, st, deliveries, i);
  }

  lemma PerformReplays(b: Books, st: Settings, id: string, now: int, deliveries: seq<Delivery>, now': int)
    requires Shaped(b) && Perform(b, st, id, now).1.Ok?
    ensures var (b1, r) := Perform(b, st, id, now);
      var b2 := Run(b1, st, deliveries);
      var (b3, again) := Perform(b2, st, id, now');
      var i := TxIndex(b2.txs, id);
      && i < |b2.txs|
      && SameTables(b2, b3)
      && again == (if b2.txs[i].state.Performed? then r else Err(CannotPerform))
  {
    PerformStores(b, st, id, now);
    StepShaped(b, st, PerformCall(id), now);
    assert Step(b, st, PerformCall(id), now) == Perform(b, st, id, now).0;
    hide Step, Perform, Shaped;
    PerformOfPerformed(Perform(b, st, id, now).0, st, TxIndex(b.txs, id), deliveries, now');
  }

  /** An answered cancel has stored what it answered, in a final state. */
  lemma CancelStores(b: Books, st: Settings, id: string, reason: int, now: int)
    requires Cancel(b, st, id, reason, now).1.Ok?
    ensures var (b1, r) := Cancel(b, st, id, reason, now);
      var i := TxIndex(b.txs, id);
      && i < |b1.txs| && b1.txs[i].paymeID == id && b1.txs[i].state.IsFinal()
      && r == Ok(CancelResult(Number(b1.txs[i]), b1.txs[i].cancelTime, b1.txs[i].state))
  {
  }

  lemma CancelOfFinal(b: Books, st: Settings, i: nat, deliveries: seq<Delivery>, reason: int, now: int)
    requires Shaped(b) && i < |b.txs| && b.txs[i].state.IsFinal()
    ensures var b' := Run(b, st, deliveries);
      var (b'', r) := Cancel(b', st, b.txs[i].paymeID, reason, now);
      SameTables(b', b'') && r == Ok(CancelResult(Number(b.txs[i]), b.txs[i].cancelTime, b.txs[i].state))
  {
    StillThere(b, st, deliveries, i);
  }

  /** A cancellation is final: every repeat gets the first answer, whatever its reason. */
  lemma CancelReplays(b: Books, st: Settings, id: string, reason: int, now: int, deliveries: seq<Delivery>,
                      reason': int, now': int)
    requires Shaped(b) && Cancel(b, st, id, reason, now).1.Ok?
    ensures var (b1, r) := Cancel(b, st, id, reason, now);
      var b2 := Run(b1, st, deliveries);
      var (b3, again) := Cancel(b2, st, id, reason', now');
      SameTables(b2, b3) && again == r
  {
    CancelStores(b, st, id, reason, now);
    StepShaped(b, st, CancelCall(id, reason), now);
    assert Step(b, st, CancelCall(id, reason), now) == Cancel(b, st, id, reason, now).0;
    hide Step, Cancel, Shaped;
    CancelOfFinal(Cancel(b, st, id, reason, now).0, st, TxIndex(b.txs, id), deliveries, reason', now');
  }

  /**
    A perform that comes too late cancels the transaction and moves no money, but leaves the
    order processing with no live transaction: still payable, though nothing is in flight.
   */
  lemma ExpiryLeavesTheOrder(b: Books, st: Settings, i: nat, k: nat, now: int)
    requires Consistent(b) && i < |b.txs| && k < |b.orders|
    requires b.txs[i].Expired(now, st.timeoutMillis) && b.txs[i].orderID == b.orders[k].id
    ensures var (b', r) := Perform(b, st, b.txs[i].paymeID, now);
      && r == Err(CannotPerform)
      && b'.txs[i].state == State.Cancelled && b'.txs[i].reason == Some(REASON_TIMEOUT) && b'.txs[i].cancelTime == now
      && b'.accounts == b.accounts && b'.moves == b.moves && b'.orders == b.orders
      && b'.orders[k].status == Processing && !HasActive(b'.txs, b.orders[k].id)
  {
    TxIndexIs(b, i);
  }

  // ---------- resolving twice ----------

  /** The foreign key of the orders table: every order's payer is on file. */
  predicate OwnersKnown(b: Books) {
    forall k :: 0 <= k < |b.orders| ==> AccountIndex(b.accounts, b.orders[k].accountID) < |b.accounts|
  }

  /** Accounts stay on file, and every order is one from before or its payer is on file. */
  predicate OwnersKept(b: Books, b': Books) {
    && |b.accounts| <= |b'.accounts|
    && (forall i :: 0 <= i < |b.accounts| ==> b'.accounts[i].id == b.accounts[i].id)
    && forall k :: 0 <= k < |b'.orders| ==>
         || (k < |b.orders| && b'.orders[k].accountID == b.orders[k].accountID)
         || AccountIndex(b'.accounts, b'.orders[k].accountID) < |b'.accounts|
  }

  lemma KeptOwners(b: Books, b': Books)
    requires OwnersKnown(b) && OwnersKept(b, b')
    ensures OwnersKnown(b')
  {
    forall k | 0 <= k < |b'.orders| ensures AccountIndex(b'.accounts, b'.orders[k].accountID) < |b'.accounts| {
      if k < |b.orders| && b'.orders[k].accountID == b.orders[k].accountID {
        var i := AccountIndex(b.accounts, b.orders[k].accountID);
        assert b'.accounts[i].id == b.orders[k].accountID;
      }
    }
  }

  lemma WalkInOwners(b: Books, value: string, amount: int)
    ensures OwnersKept(b, RegisterWalkIn(b, value, amount).0)
  {
    var (accounts, _, payer) := Payer(b.accounts, b.nextAccount, value);
    var i := LoginIndex(b.accounts, value);
    assert accounts[i].id == payer;
    assert AccountIndex(accounts, payer) < |accounts|;
    var orders := Arrival(b.orders, b.nextOrder, payer, amount).0;
    assert orders == b.orders || orders == b.orders + [orders[|b.orders|]];
  }

  lemma ResolveOwners(b: Books, st: Settings, account: map<string, string>, amount: int)
    ensures OwnersKept(b, ResolveOrder(b, st, account, amount).0)
  {
    ResolveCases(b, st, account, amount);
    if st.accountField in account {
      WalkInOwners(b, account[st.accountField], amount);
    }
    hide RegisterWalkIn, ResolveOrder;
  }

  lemma InsertOwners(b: Books, order: OrderRow, p: CreateParams, now: int)
    ensures OwnersKept(b, Insert(b, order, p, now).0)
  {
  }

  lemma PerformOwners(b: Books, st: Settings, id: string, now: int)
    ensures OwnersKept(b, Perform(b, st, id, now).0)
  {
  }

  lemma CancelOwners(b: Books, st: Settings, id: string, reason: int, now: int)
    ensures OwnersKept(b, Cancel(b, st, id, reason, now).0)
  {
  }

  /** No delivery breaks it. */
  lemma StepOwners(b: Books, st: Settings, call: Call, now: int)
    requires OwnersKnown(b)
    ensures OwnersKnown(Step(b, st, call, now))
  {
    hide OwnersKnown, Perform, Cancel, Insert, ResolveOrder;
    match call
    case CheckCall(account, amount) =>
      ResolveOwners(b, st, account, amount);
      KeptOwners(b, Step(b, st, call, now));
    case CreateCall(p) =>
      if TxIndex(b.txs, p.id) == |b.txs| {
        ResolveOwners(b, st, p.account, p.amount);
        var (b1, order) := Admit(b, st, p);
        KeptOwners(b, b1);
        if order.Ok? {
          InsertOwners(b1, order.value, p, now);
          KeptOwners(b1, Step(b, st, call, now));
        }
      } else {
        SameOwners(b, Step(b, st, call, now));
      }
    case LateCall(order, p) =>
      if WasAdmitted(b, order, p) { InsertOwners(b, order, p, now); KeptOwners(b, Step(b, st, call, now)); }
    case PerformCall(id) =>
      PerformOwners(b, st, id, now);
      KeptOwners(b, Step(b, st, call, now));
    case CancelCall(id, reason) =>
      CancelOwners(b, st, id, reason, now);
      KeptOwners(b, Step(b, st, call, now));
    case BlockCall(_) => KeptOwners(b, Step(b, st, call, now));
  }

  lemma SameOwners(b: Books, b': Books)
    requires OwnersKnown(b) && b'.orders == b.orders && b'.accounts == b.accounts
    ensures OwnersKnown(b')
  {
  }

  lemma WalkInTwice(b: Books, value: string, amount: int)
    requires RegisterWalkIn(b, value, amount).1.Ok?
    ensures var (b1, r) := RegisterWalkIn(b, value, amount);
      RegisterWalkIn(b1, value, amount) == (b1, r)
  {
    var payer := Payer(b.accounts, b.nextAccount, value);
    var i := LoginIndex(b.accounts, value);
    assert payer.0[i].login == value && (i == |b.accounts| ==> payer.0[..i] == b.accounts);
    assert LoginIndex(payer.0, value) == i;
    var arrival := Arrival(b.orders, b.nextOrder, payer.2, amount);
    var k := ReusableIndex(b.orders, payer.2, amount);
    assert arrival.0[k] == arrival.2 && (k == |b.orders| ==> arrival.0[..k] == b.orders);
    assert ReusableIndex(arrival.0, payer.2, amount) == k;
  }

  /**
    The check and the create that follows it resolve to the same order, and the second
    resolution writes nothing: walk-in payers leave no trail of unpaid duplicates.
   */
  lemma ResolveTwice(b: Books, st: Settings, account: map<string, string>, amount: int)
    requires Shaped(b) && OwnersKnown(b) && Decimal.InInt64(b.nextOrder + 1)
    requires ResolveOrder(b, st, account, amount).1.Ok?
    ensures var (b1, r) := ResolveOrder(b, st, account, amount);
      ResolveOrder(b1, st, account, amount) == (b1, r)
  {
    hide ResolveOrder, RegisterWalkIn;
    var (b1, r) := ResolveOrder(b, st, account, amount);
    ResolveCases(b, st, account, amount);
    if b1 != b {
      WalkInTwice(b, account[st.accountField], amount);
      if st.accountField == "phone" {
        ResolveTwiceByPhone(b, st, account, amount);
      } else if st.accountField == "login" {
        ResolveTwiceByLogin(b, st, account, amount);
      } else if st.accountField == ORDER_ID_FIELD {
        ResolveTwiceByNumber(b, st, account, amount);
      } else {
        ResolveTwiceByNothing(b, st, account, amount);
      }
    }
  }

  /** No column answers to any other field, so whoever pays is a walk-in. */
  lemma ResolveTwiceByNothing(b: Books, st: Settings, account: map<string, string>, amount: int)
    requires st.accountField != "phone" && st.accountField != "login" && st.accountField != ORDER_ID_FIELD
    requires ResolveOrder(b, st, account, amount).1.Ok?
    requires var (b1, r) := RegisterWalkIn(b, account[st.accountField], amount);
      RegisterWalkIn(b1, account[st.accountField], amount) == (b1, r)
    ensures var (b1, r) := ResolveOrder(b, st, account, amount);
      ResolveOrder(b1, st, account, amount) == (b1, r)
  {
    hide RegisterWalkIn;
  }

  lemma ResolveTwiceByNumber(b: Books, st: Settings, account: map<string, string>, amount: int)
    requires st.accountField == ORDER_ID_FIELD
    requires Shaped(b) && OwnersKnown(b) && Decimal.InInt64(b.nextOrder + 1)
    requires ResolveOrder(b, st, account, amount).1.Ok? && ResolveOrder(b, st, account, amount).0 != b
    ensures var (b1, r) := ResolveOrder(b, st, account, amount);
      ResolveOrder(b1, st, account, amount) == (b1, r)
  {
    var value := account[ORDER_ID_FIELD];
    ResolveShaped(b, st, account, amount);
    ResolveCases(b, st, account, amount);
    var k := OrderTextIndex(b.orders, value);
    if k < |b.orders| && b.orders[k].Payable() {
      PayableNamedOrder(b, st, account, amount, k);
    }
    ResolveTwiceByOrder(b, st, account, amount);
  }

  lemma PhoneIndexAppend(rows: seq<AccountRow>, row: AccountRow, phone: string)
    requires row.phone != phone
    ensures PhoneIndex(rows + [row], phone) ==
            if PhoneIndex(rows, phone) < |rows| then PhoneIndex(rows, phone) else |rows| + 1
  {
    var i, i' := PhoneIndex(rows, phone), PhoneIndex(rows + [row], phone);
    assert i < |rows| ==> (rows + [row])[i] == rows[i];
  }

  lemma ResolveTwiceByPhone(b: Books, st: Settings, account: map<string, string>, amount: int)
    requires st.accountField == "phone"
    requires ResolveOrder(b, st, account, amount).1.Ok? && ResolveOrder(b, st, account, amount).0 != b
    requires OwnersKnown(b)
    requires AccountTable(b.accounts, b.nextAccount)
    requires var (b1, r) := RegisterWalkIn(b, account["phone"], amount);
      RegisterWalkIn(b1, account["phone"], amount) == (b1, r)
    ensures var (b1, r) := ResolveOrder(b, st, account, amount);
      ResolveOrder(b1, st, account, amount) == (b1, r)
  {
    var (b1, r) := ResolveOrder(b, st, account, amount);
    var value := account["phone"];
    var i := PhoneIndex(b.accounts, value);
    assert b1.accounts == b.accounts || b1.accounts == b.accounts + [AccountRow(b.nextAccount, "", value, value, 0, false)];
    if |b.accounts| < |b1.accounts| {
      PhoneIndexAppend(b.accounts, b1.accounts[|b.accounts|], value);
    }
    assert PhoneIndex(b1.accounts, value) == if i < |b.accounts| then i else |b1.accounts|;
    if i < |b.accounts| {
      var id := b.accounts[i].id;
      assert PayableIndex(b.orders, id) == |b.orders|;
      assert b1.accounts[i] == b.accounts[i];
      // The new order, if any, belongs to the account with that login: either it is another
      // payer, or it is the one the phone names and the order is found directly.
      var k := PayableIndex(b1.orders, id);
      assert k < |b1.orders| ==> k == |b.orders|;
    }
  }

  lemma ResolveTwiceByLogin(b: Books, st: Settings, account: map<string, string>, amount: int)
    requires st.accountField == "login"
    requires ResolveOrder(b, st, account, amount).1.Ok? && ResolveOrder(b, st, account, amount).0 != b
    requires OwnersKnown(b) && AccountTable(b.accounts, b.nextAccount)
    ensures var (b1, r) := ResolveOrder(b, st, account, amount);
      ResolveOrder(b1, st, account, amount) == (b1, r)
  {
    var (b1, r) := ResolveOrder(b, st, account, amount);
    var value := account["login"];
    var i := LoginIndex(b.accounts, value);
    var payer := Payer(b.accounts, b.nextAccount, value);
    assert payer.0[i].login == value && payer.0[i].id == payer.2;
    assert LoginIndex(b1.accounts, value) == i;
    forall k | 0 <= k < |b.orders| ensures b.orders[k].accountID < b.nextAccount {
      assert b.accounts[AccountIndex(b.accounts, b.orders[k].accountID)].id == b.orders[k].accountID;
    }
    assert PayableIndex(b.orders, payer.2) == |b.orders|;
    assert b1.orders[|b.orders|].accountID == payer.2;
    assert PayableIndex(b1.orders, payer.2) == |b.orders|;
  }

  /** A named order that can no longer be paid brings a walk-in, at every stand that takes them. */
  lemma UnpayableNamedOrder(b: Books, st: Settings, account: map<string, string>, amount: int, k: nat)
    requires st.accountField == ORDER_ID_FIELD && st.autoRegister
    requires ORDER_ID_FIELD in account && account[ORDER_ID_FIELD] != ""
    requires OrderTable(b.orders, b.nextOrder) && Decimal.InInt64(b.nextOrder)
    requires k == OrderTextIndex(b.orders, account[ORDER_ID_FIELD]) < |b.orders| && !b.orders[k].Payable()
    ensures ResolveOrder(b, st, account, amount) == RegisterWalkIn(b, account[ORDER_ID_FIELD], amount)
  {
    Decimal.ParseFormatInt(b.orders[k].id);
    OrderIndexIs(b.orders, b.nextOrder, k);
    var owner := AccountIndex(b.accounts, b.orders[k].accountID);
    assert owner < |b.accounts| ==> b.accounts[owner].id == b.orders[k].accountID;
  }

  /** A named order that can be paid is the one resolved, without a write. */
  lemma PayableNamedOrder(b: Books, st: Settings, account: map<string, string>, amount: int, k: nat)
    requires st.accountField == ORDER_ID_FIELD
    requires ORDER_ID_FIELD in account && account[ORDER_ID_FIELD] != ""
    requires OrderTable(b.orders, b.nextOrder) && Decimal.InInt64(b.nextOrder)
    requires k == OrderTextIndex(b.orders, account[ORDER_ID_FIELD]) < |b.orders| && b.orders[k].Payable()
    requires AccountIndex(b.accounts, b.orders[k].accountID) < |b.accounts|
    ensures ResolveOrder(b, st, account, amount) == (b, Ok(b.orders[k]))
  {
    Decimal.ParseFormatInt(b.orders[k].id);
    OrderIndexIs(b.orders, b.nextOrder, k);
  }

  lemma ResolveTwiceByOrder(b: Books, st: Settings, account: map<string, string>, amount: int)
    requires st.accountField == ORDER_ID_FIELD && st.autoRegister
    requires ORDER_ID_FIELD in account && account[ORDER_ID_FIELD] != ""
    requires OrderTable(b.orders, b.nextOrder) && OwnersKnown(b) && 0 < amount
    ensures var value := account[ORDER_ID_FIELD];
      var (b1, r) := RegisterWalkIn(b, value, amount);
      && OrderTable(b1.orders, b1.nextOrder) && Decimal.InInt64(b1.nextOrder) ==>
      var k := OrderTextIndex(b.orders, value);
      (k < |b.orders| ==> !b.orders[k].Payable()) ==>
        ResolveOrder(b1, st, account, amount) == (b1, r)
  {
    var value := account[ORDER_ID_FIELD];
    var (b1, r) := RegisterWalkIn(b, value, amount);
    WalkInTwice(b, value, amount);
    var k, k1 := OrderTextIndex(b.orders, value), OrderTextIndex(b1.orders, value);
    if OrderTable(b1.orders, b1.nextOrder) && Decimal.InInt64(b1.nextOrder) {
      if k < |b.orders| {
        assert b1.orders[k] == b.orders[k];
        assert k1 == k;
        if !b.orders[k].Payable() {
          UnpayableNamedOrder(b1, st, account, amount, k);
        }
      } else if k1 < |b1.orders| {
        assert k1 == |b.orders|;
        PayableNamedOrder(b1, st, account, amount, k1);
      }
    }
  }

  /**
    When the account object names an order outright and the stand takes no walk-ins, the
    payment resolves exactly when that order exists and is payable, and to that order.
   */
  lemma NamedOrderSettles(b: Books, st: Settings, account: map<string, string>, amount: int)
    requires Shaped(b) && OwnersKnown(b) && Decimal.InInt64(b.nextOrder)
    requires st.accountField == ORDER_ID_FIELD && !st.autoRegister
    requires ORDER_ID_FIELD in account && account[ORDER_ID_FIELD] != ""
    ensures var (b1, r) := ResolveOrder(b, st, account, amount);
      var k := OrderTextIndex(b.orders, account[ORDER_ID_FIELD]);
      && b1 == b
      && r == if k < |b.orders| && b.orders[k].Payable() then Ok(b.orders[k]) else Err(AccountNotFound(ORDER_ID_FIELD))
  {
    var k := OrderTextIndex(b.orders, account[ORDER_ID_FIELD]);
    if k < |b.orders| {
      if b.orders[k].Payable() {
        PayableNamedOrder(b, st, account, amount, k);
      } else {
        Decimal.ParseFormatInt(b.orders[k].id);
        OrderIndexIs(b.orders, b.nextOrder, k);
      }
    }
  }
}
