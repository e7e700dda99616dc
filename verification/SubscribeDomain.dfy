/**
  The Subscribe API's two aggregates as the service holds them between a load and a store:
  objects whose methods assign their fields, each proved to do what SubscribeModel says.
 */
module SubscribeDomain {
  import opened Common
  import opened SubscribeModel

  class Card {
    var id: int
    var token: string
    const number: string
    const expire: string
    var recurrent: bool
    var verify: bool
    var verifyCode: string
    var balance: int
    var removed: bool
    const outcome: Outcome
    const source: CardSource
    const smsEnabled: bool
    const frozen: bool
    var account: map<string, string>
    var customer: string
    var verifyCodeSentAt: int
    var verifyWaitMillis: int
    var registeredAt: int

    function Row(): CardRow
      reads this
    {
      CardRow(id, token, number, expire, recurrent, verify, verifyCode, balance, removed, outcome, source, smsEnabled,
              frozen, account, customer, verifyCodeSentAt, verifyWaitMillis, registeredAt)
    }

    constructor FromRow(row: CardRow)
      ensures Row() == row
    {
      id, token, number, expire := row.id, row.token, row.number, row.expire;
      recurrent, verify, verifyCode, balance := row.recurrent, row.verify, row.verifyCode, row.balance;
      removed, outcome, source, smsEnabled := row.removed, row.outcome, row.source, row.smsEnabled;
      frozen, account, customer := row.frozen, row.account, row.customer;
      verifyCodeSentAt, verifyWaitMillis, registeredAt := row.verifyCodeSentAt, row.verifyWaitMillis, row.registeredAt;
    }

    /** Records that an integration tokenized this card for itself. */
    method Register(now: int)
      modifies this`registeredAt
      ensures Row() == old(Row()).(registeredAt := now)
    {
      registeredAt := now;
    }

    method SendVerifyCode(code: string, now: int, waitMillis: int)
      modifies this`verifyCode, this`verifyCodeSentAt, this`verifyWaitMillis
      ensures Row() == old(Row()).(verifyCode := code, verifyCodeSentAt := now, verifyWaitMillis := waitMillis)
    {
      verifyCode := code;
      verifyCodeSentAt := now;
      verifyWaitMillis := waitMillis;
    }

    /** Checks an OTP: a refused one changes nothing, and an accepted one is spent. */
    method VerifyWith(code: string, now: int) returns (r: Result<()>)
      modifies this`verify, this`verifyCode
      ensures match old(Row()).AfterVerify(code, now)
        case Ok(row) => r.Ok? && Row() == row
        case Err(e) => r == Err(e) && Row() == old(Row())
    {
      var operable := Operable();
      if operable.Err? {
        return operable;
      }
      if outcome == VerifyFailed {
        return outcome.Err();
      }
      if verifyCode == "" || (code != verifyCode && code != DEFAULT_VERIFY_CODE) {
        return Err(CannotPerform);
      }
      if 0 < verifyWaitMillis && now - verifyCodeSentAt > verifyWaitMillis {
        return Err(CannotPerform);
      }
      verify := true;
      verifyCode := "";
      return Ok(());
    }

    method Operable() returns (r: Result<()>)
      ensures r == Row().Operable()
    {
      if removed {
        return Err(CannotPerform);
      }
      if outcome.BlocksEverything() {
        return outcome.Err();
      }
      return Ok(());
    }

    method Usable(amount: int) returns (r: Result<()>)
      ensures r == Row().Usable(amount)
    {
      r := Operable();
      if r.Err? {
        return;
      }
      if outcome.Err().Err? {
        return outcome.Err();
      }
      if !verify {
        return Err(CannotPerform);
      }
      if balance < amount {
        return Err(CannotPerform);
      }
    }

    method Charge(amount: int)
      modifies this`balance
      ensures Row() == old(Row()).Moved(-amount)
    {
      if frozen {
        return;
      }
      balance := balance - amount;
    }

    /** Refund and Receive alike: nothing moves on a frozen card, in either direction. */
    method Credit(amount: int)
      modifies this`balance
      ensures Row() == old(Row()).Moved(amount)
    {
      if frozen {
        return;
      }
      balance := balance + amount;
    }
  }

  /** The ordered walk a paying receipt makes. */
  const PAY_PROGRESSION: seq<ReceiptState> := [Checking, Withdrawn, Closing, Paid]

  class Receipt {
    const id: string
    const amount: int
    var state: ReceiptState
    const payout: bool
    var hold: bool
    var holdExpire: int
    var cardSystem: Option<CardSystem>
    const account: map<string, string>
    var cardID: Option<int>
    const createTime: int
    var payTime: int
    var cancelTime: int
    var merchantTxn: string

    function Row(): ReceiptRow
      reads this
    {
      ReceiptRow(id, amount, state, payout, hold, holdExpire, cardSystem, account, cardID, createTime, payTime,
                 cancelTime, merchantTxn)
    }

    constructor FromRow(row: ReceiptRow)
      ensures Row() == row
    {
      id, amount, state, payout, hold := row.id, row.amount, row.state, row.payout, row.hold;
      holdExpire, cardSystem, account, cardID := row.holdExpire, row.cardSystem, row.account, row.cardID;
      createTime, payTime, cancelTime := row.createTime, row.payTime, row.cancelTime;
      merchantTxn := row.merchantTxn;
    }

    /** Searches the progression for the current state; the last one has no step after it. */
    method NextPayState() returns (next: ReceiptState, ok: bool)
      ensures ok <==> state.NextPay().Some?
      ensures next == if ok then state.NextPay().value else state
    {
      if state == Created {
        return PAY_PROGRESSION[0], true;
      }
      for i := 0 to |PAY_PROGRESSION|
        invariant forall k :: 0 <= k < i && k + 1 < |PAY_PROGRESSION| ==> PAY_PROGRESSION[k] != state
      {
        if PAY_PROGRESSION[i] == state && i + 1 < |PAY_PROGRESSION| {
          assert i == 0 || i == 1 || i == 2;
          return PAY_PROGRESSION[i + 1], true;
        }
      }
      assert PAY_PROGRESSION[0] != state && PAY_PROGRESSION[1] != state && PAY_PROGRESSION[2] != state;
      return state, false;
    }

    method BeginPay(card: int, system: CardSystem, holding: bool, now: int) returns (r: Result<()>)
      modifies this`cardID, this`cardSystem, this`hold, this`state, this`payTime
      ensures match old(Row()).AfterBeginPay(card, system, holding, now)
        case Ok(row) => r == Ok(()) && Row() == row
        case Err(e) => r == Err(e) && Row() == old(Row())
    {
      if state != Created {
        return Err(CannotPerform);
      }
      cardID := Some(card);
      cardSystem := Some(system);
      hold := holding;
      state := Checking;
      payTime := now;
      return Ok(());
    }

    /** One step along whichever walk the receipt is on, and whether there was one. */
    method Advance(now: int) returns (moved: bool)
      modifies this`state, this`cancelTime
      ensures moved <==> old(Row()).NextState().Some?
      ensures Row() == old(Row()).AfterAdvance(now)
    {
      if state == CancelQueued {
        state := Cancelled;
        cancelTime := now;
        return true;
      }
      var next, ok := NextPayState();
      if !ok {
        return false;
      }
      if hold && next == Paid {
        state := Held;
        return true;
      }
      state := next;
      return true;
    }

    method ConfirmHold(now: int) returns (r: Result<()>)
      modifies this`state, this`payTime, this`hold
      ensures match old(Row()).AfterConfirmHold(now)
        case Ok(row) => r == Ok(()) && Row() == row
        case Err(e) => r == Err(e) && Row() == old(Row())
    {
      if state != Held {
        return Err(CannotPerform);
      }
      state := Paid;
      payTime := now;
      hold := false;
      return Ok(());
    }

    method Cancel(now: int) returns (r: Result<()>)
      modifies this`state, this`cancelTime
      ensures match old(Row()).AfterCancel(now)
        case Ok(row) => r == Ok(()) && Row() == row
        case Err(e) => r == Err(e) && Row() == old(Row())
    {
      if state == Cancelled || state == CancelQueued {
        return Ok(());
      }
      if state == Created {
        state := Cancelled;
        cancelTime := now;
        return Ok(());
      }
      if state == Paid || state == Held || state.InProgress() {
        state := CancelQueued;
        cancelTime := now;
        return Ok(());
      }
      return Err(CannotPerform);
    }

    method Complete(claimed: int, now: int) returns (r: Result<()>)
      modifies this`state, this`payTime
      ensures match old(Row()).AfterComplete(claimed, now)
        case Ok(row) => r == Ok(()) && Row() == row
        case Err(e) => r == Err(e) && Row() == old(Row())
    {
      if !payout || state != Created {
        return Err(CannotPerform);
      }
      if claimed != amount {
        return Err(InvalidAmount);
      }
      state := Paid;
      payTime := now;
      return Ok(());
    }
  }
}
