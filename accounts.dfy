/**
 * The single-account state machine (Cuenta) and its status (EstadoCuenta).
 *
 * Each operation is a pure step function on AccountState, returning the
 * caller-visible result and the new state; the Account class keeps the same
 * fields in place and every method is proved to move them as its step does.
 */
module Accounts {
  import opened Outcomes
  import opened Decimal
  import opened Validation
  import opened Cipher
  import opened Transactions
  import opened Clients

  /** ACTIVA, INACTIVA */
  datatype Status = Active | Inactive

  /** Attempts a fresh account, a correct PIN or a PIN change restores. */
  const MaxAttempts := 3

  /** Number of existing records from which a withdrawal pays commission. */
  const CommissionThreshold := 5

  /**
   * Math.round(amount * 0.02) for a non-negative amount: amount / 50 rounded to
   * the nearest integer, halves up.
   */
  function TwoPercent(amount: int): (c: int)
    requires amount >= 0
    ensures 50 * c - 25 <= amount < 50 * c + 25
  {
    (amount + 25) / 50
  }

  /** The commission a withdrawal of `amount` pays when the log already holds `logSize` records. */
  function Commission(logSize: nat, amount: int): (c: int)
    requires amount >= 0
    ensures logSize < CommissionThreshold ==> c == 0
    ensures logSize >= CommissionThreshold ==> 50 * c - 25 <= amount < 50 * c + 25
  {
    if logSize >= CommissionThreshold then TwoPercent(amount) else 0
  }

  /** The account number built from the shared counter's value: "CTA" + n. */
  function AccountNumber(n: nat): string
  {
    "CTA" + NatToString(n)
  }

  /** An account number is "CTA" followed by decimal digits that denote the counter's value. */
  lemma AccountNumberDenotes(n: nat)
    ensures |AccountNumber(n)| >= 4 && AccountNumber(n)[..3] == "CTA"
    ensures forall k :: 3 <= k < |AccountNumber(n)| ==> '0' <= AccountNumber(n)[k] <= '9'
    ensures Value(AccountNumber(n)[3..]) == n
  {
    assert AccountNumber(n)[3..] == NatToString(n);
  }

  /** Counter values that differ give account numbers that differ. */
  lemma AccountNumberInjective(m: nat, n: nat)
    requires AccountNumber(m) == AccountNumber(n)
    ensures m == n
  {
    assert NatToString(m) == AccountNumber(m)[3..];
    assert NatToString(n) == AccountNumber(n)[3..];
    NatToStringInjective(m, n);
  }

  /** The fields of an account that change. */
  datatype AccountState = AccountState(
    status: Status,
    balance: int,
    pin: Blob,
    attempts: int,
    log: seq<Transaction>)

  /** A record an account writes: well formed, never a transfer, and a deposit never pays commission. */
  predicate Recorded(t: Transaction) {
    WellFormed(t) && t.kind != Transfer && (t.kind == Deposit ==> !t.charged)
  }

  /** The account invariant: no negative balance, attempts within 0..3 and above 0 while active. */
  predicate Inv(s: AccountState) {
    && s.balance >= 0
    && 0 <= s.attempts <= MaxAttempts
    && (s.status == Active ==> s.attempts >= 1)
    && forall k :: 0 <= k < |s.log| ==> Recorded(s.log[k])
  }

  /** What an operation returns to its caller, with the account's new state. */
  datatype Step<T> = Step(result: Result<T>, state: AccountState)

  /** What a PIN check returns, with the account's new state. */
  datatype Verdict = Verdict(accepted: bool, state: AccountState)

  // ---------------------------------------------------------------------------
  // The operations as step functions
  // ---------------------------------------------------------------------------

  /**
   * depositar: refused on an inactive account, then for a non-positive amount,
   * with nothing changed; otherwise credits the amount and logs one uncharged
   * deposit.
   */
  function DepositStep(s: AccountState, amount: int): (r: Step<()>)
    ensures s.status == Inactive ==> r == Step(Err(AccountInactive), s)
    ensures s.status == Active && amount <= 0 ==> r == Step(Err(NonPositiveAmount), s)
    ensures s.status == Active && amount > 0 ==>
      && r.result == Ok(())
      && r.state == s.(balance := s.balance + amount,
                       log := s.log + [Transaction(Deposit, amount, false, 0)])
  {
    if s.status != Active then Step(Err(AccountInactive), s)
    else if amount <= 0 then Step(Err(NonPositiveAmount), s)
    else
      var credited := s.(balance := s.balance + amount);
      match NewTransaction(Deposit, amount, false, 0)
      case Err(e) => Step(Err(e), credited)
      case Ok(t) => Step(Ok(()), credited.(log := s.log + [t]))
  }

  /**
   * retirar. Refused on an inactive account, then for a non-positive amount,
   * then when the balance does not cover amount plus commission, each time
   * with nothing changed. Otherwise the balance drops by amount plus
   * commission and one withdrawal record is logged, charged exactly when the
   * log already held CommissionThreshold records. As in the source, the debit
   * happens before the record is built: when the commission is due but rounds
   * to 0 the record is refused and the debit stays.
   */
  function WithdrawStep(s: AccountState, amount: int): (r: Step<Transaction>)
    ensures s.status == Inactive ==> r == Step(Err(AccountInactive), s)
    ensures s.status == Active && amount <= 0 ==> r == Step(Err(NonPositiveAmount), s)
    ensures s.status == Active && amount > 0 && s.balance < amount + Commission(|s.log|, amount) ==>
      r == Step(Err(InsufficientFunds(s.balance, amount + Commission(|s.log|, amount))), s)
    ensures r.result.Ok? ==>
      var t := r.result.value;
      && t == Transaction(Withdrawal, amount, |s.log| >= CommissionThreshold, Commission(|s.log|, amount))
      && Recorded(t)
      && r.state == s.(balance := s.balance - amount - t.commission, log := s.log + [t])
    ensures r.result.Err? && r.state != s ==>
      r.result.error == InvalidCommission && r.state == s.(balance := s.balance - amount)
    ensures (&& s.status == Active && amount > 0 && s.balance >= amount + Commission(|s.log|, amount)
             && (|s.log| < CommissionThreshold || amount >= 25)) ==> r.result.Ok?
  {
    if s.status != Active then Step(Err(AccountInactive), s)
    else if amount <= 0 then Step(Err(NonPositiveAmount), s)
    else
      var charged := |s.log| >= CommissionThreshold;
      var commission := if charged then TwoPercent(amount) else 0;
      var total := amount + commission;
      if s.balance < total then Step(Err(InsufficientFunds(s.balance, total)), s)
      else
        var debited := s.(balance := s.balance - total);
        match NewTransaction(Withdrawal, amount, charged, commission)
        case Err(e) => Step(Err(e), debited)
        case Ok(t) => Step(Ok(t), debited.(log := s.log + [t]))
  }

  /**
   * verificarPin. An inactive account refuses without any change. A correct
   * PIN restores all attempts; a wrong one uses one up and deactivates the
   * account when none is left.
   */
  function VerifyPinStep(s: AccountState, pin: string): (v: Verdict)
    ensures s.status == Inactive ==> v == Verdict(false, s)
    ensures s.status == Active ==> (v.accepted <==> Decrypt(s.pin) == pin)
    ensures s.status == Active && v.accepted ==> v.state == s.(attempts := MaxAttempts)
    ensures s.status == Active && !v.accepted ==>
      && v.state.attempts == s.attempts - 1
      && (v.state.status == Inactive <==> s.attempts <= 1)
      && v.state == s.(attempts := s.attempts - 1, status := v.state.status)
  {
    if s.status == Inactive then Verdict(false, s)
    else if Decrypt(s.pin) == pin then Verdict(true, s.(attempts := MaxAttempts))
    else
      var left := s.attempts - 1;
      Verdict(false, s.(attempts := left, status := if left <= 0 then Inactive else s.status))
  }

  /**
   * cambiarPin: a malformed PIN is refused with nothing changed; otherwise
   * the new PIN is stored encrypted and the attempts restored. The status is
   * left as it was, so a deactivated account stays deactivated.
   */
  function ChangePinStep(s: AccountState, newPin: string): (r: Step<()>)
    ensures r.result.Ok? <==> ValidPin(newPin)
    ensures r.result.Err? ==> r == Step(Err(PinFormatInvalid), s)
    ensures r.result.Ok? ==>
      && Decrypt(r.state.pin) == newPin
      && r.state == s.(pin := r.state.pin, attempts := MaxAttempts)
  {
    if !ValidPin(newPin) then Step(Err(PinFormatInvalid), s)
    else Step(Ok(()), s.(pin := Encrypt(newPin), attempts := MaxAttempts))
  }

  /** consultarSaldo: the balance, only when the PIN check accepts; the check's effects stay either way. */
  function ConsultBalanceStep(s: AccountState, pin: string): (r: Step<int>)
    ensures r.state == VerifyPinStep(s, pin).state
    ensures r.result.Ok? <==> VerifyPinStep(s, pin).accepted
    ensures r.result.Ok? ==> r.result.value == s.balance
    ensures r.result.Err? ==> r.result.error == PinRejected
  {
    var v := VerifyPinStep(s, pin);
    if !v.accepted then Step(Err(PinRejected), v.state) else Step(Ok(s.balance), v.state)
  }

  /** consultarTransacciones: the log, only when the PIN check accepts; the check's effects stay either way. */
  function ConsultTransactionsStep(s: AccountState, pin: string): (r: Step<seq<Transaction>>)
    ensures r.state == VerifyPinStep(s, pin).state
    ensures r.result.Ok? <==> VerifyPinStep(s, pin).accepted
    ensures r.result.Ok? ==> r.result.value == s.log
    ensures r.result.Err? ==> r.result.error == PinRejected
  {
    var v := VerifyPinStep(s, pin);
    if !v.accepted then Step(Err(PinRejected), v.state) else Step(Ok(s.log), v.state)
  }

  /** The state the constructor sets up before it records the opening deposit. */
  function Blank(pin: string): AccountState
  {
    AccountState(Active, 0, Encrypt(pin), MaxAttempts, [])
  }

  /**
   * The constructor: refuses a malformed PIN, then a non-positive opening
   * deposit; otherwise the account is active with all attempts, holds the
   * opening deposit and logs it as its one uncharged deposit record.
   */
  function OpenStep(pin: string, opening: int): (r: Result<AccountState>)
    ensures !ValidPin(pin) ==> r == Err(PinFormatInvalid)
    ensures ValidPin(pin) && opening <= 0 ==> r == Err(NonPositiveOpeningDeposit)
    ensures r.Ok? <==> ValidPin(pin) && opening > 0
    ensures r.Ok? ==>
      && r.value.status == Active && r.value.attempts == MaxAttempts
      && r.value.balance == opening && Decrypt(r.value.pin) == pin
      && r.value.log == [Transaction(Deposit, opening, false, 0)]
      && Inv(r.value)
  {
    if !ValidPin(pin) then Err(PinFormatInvalid)
    else if opening <= 0 then Err(NonPositiveOpeningDeposit)
    else Ok(DepositStep(Blank(pin), opening).state)
  }

  // ---------------------------------------------------------------------------
  // Properties of the step functions
  // ---------------------------------------------------------------------------

  /** Every operation keeps the invariant, the refused withdrawal included. */
  lemma StepsPreserveInv(s: AccountState, amount: int, pin: string)
    requires Inv(s)
    ensures Inv(DepositStep(s, amount).state)
    ensures Inv(WithdrawStep(s, amount).state)
    ensures Inv(VerifyPinStep(s, pin).state)
    ensures Inv(ChangePinStep(s, pin).state)
  {
    var d := DepositStep(s, amount).state;
    if d != s {
      assert forall k :: 0 <= k < |d.log| ==> Recorded(d.log[k]) by {
        assert forall k :: 0 <= k < |s.log| ==> d.log[k] == s.log[k];
      }
    }
    var w := WithdrawStep(s, amount);
    if w.result.Ok? {
      assert forall k :: 0 <= k < |w.state.log| ==> Recorded(w.state.log[k]) by {
        assert forall k :: 0 <= k < |s.log| ==> w.state.log[k] == s.log[k];
      }
    }
  }

  /** A withdrawal pays commission exactly when the log already held five records; the amount is 2 %, rounded. */
  lemma WithdrawCommissionRule(s: AccountState, amount: int)
    requires WithdrawStep(s, amount).result.Ok?
    ensures var t := WithdrawStep(s, amount).result.value;
      && (t.charged <==> |s.log| >= CommissionThreshold)
      && (t.charged ==> t.commission == (amount + 25) / 50 && t.commission >= 1)
      && (!t.charged ==> t.commission == 0)
      && WithdrawStep(s, amount).state.balance == s.balance - amount - t.commission
  {
  }

  /**
   * The source's anomaly: with the commission due, a withdrawal of 1 to 24
   * that the balance covers has its commission round to 0, so the record is
   * refused after the debit. This happens exactly in that case, and then the
   * balance has fallen by the amount while the log is unchanged.
   */
  lemma WithdrawAnomaly(s: AccountState, amount: int)
    ensures WithdrawStep(s, amount).result == Err(InvalidCommission)
      <==> s.status == Active && |s.log| >= CommissionThreshold && 1 <= amount <= 24 && s.balance >= amount
    ensures WithdrawStep(s, amount).result == Err(InvalidCommission) ==>
      WithdrawStep(s, amount).state == s.(balance := s.balance - amount)
  {
    if s.status == Active && amount > 0 {
      var charged := |s.log| >= CommissionThreshold;
      var c := Commission(|s.log|, amount);
      if charged && amount <= 24 {
        assert c == 0;
      } else if charged {
        assert c >= 1;
      }
    }
  }

  /** Consecutive PIN checks. */
  function VerifyAll(s: AccountState, pins: seq<string>): AccountState
    decreases |pins|
  {
    if pins == [] then s else VerifyAll(VerifyPinStep(s, pins[0]).state, pins[1..])
  }

  /**
   * Wrong PINs in a row deactivate the account exactly when there are at
   * least as many of them as attempts were left (at once if it was already
   * inactive); the balance, the log and the PIN do not change.
   */
  lemma {:induction false} WrongPinsLock(s: AccountState, pins: seq<string>)
    requires Inv(s)
    requires forall k :: 0 <= k < |pins| ==> pins[k] != Decrypt(s.pin)
    ensures VerifyAll(s, pins).status == Inactive <==> (s.status == Inactive || |pins| >= s.attempts)
    ensures Inv(VerifyAll(s, pins))
    ensures VerifyAll(s, pins).status == Active ==> VerifyAll(s, pins).attempts == s.attempts - |pins|
    ensures VerifyAll(s, pins) == s.(status := VerifyAll(s, pins).status, attempts := VerifyAll(s, pins).attempts)
    decreases |pins|
  {
    if pins != [] {
      var s' := VerifyPinStep(s, pins[0]).state;
      StepsPreserveInv(s, 0, pins[0]);
      assert forall k :: 0 <= k < |pins[1..]| ==> pins[1..][k] != Decrypt(s'.pin) by {
        assert forall k :: 0 <= k < |pins[1..]| ==> pins[1..][k] == pins[k + 1];
      }
      WrongPinsLock(s', pins[1..]);
    }
  }

  /**
   * On a new account three wrong PINs deactivate it, and a fourth check with
   * the right PIN is still refused and changes nothing.
   */
  lemma ThreeWrongPinsLockNewAccount(pin: string, opening: int, wrong: seq<string>)
    requires OpenStep(pin, opening).Ok?
    requires |wrong| == 3 && forall k :: 0 <= k < 3 ==> wrong[k] != pin
    ensures var locked := VerifyAll(OpenStep(pin, opening).value, wrong);
      && locked.status == Inactive
      && VerifyPinStep(locked, pin) == Verdict(false, locked)
  {
    var s := OpenStep(pin, opening).value;
    WrongPinsLock(s, wrong);
  }

  /** Two wrong PINs leave a new account active with one attempt; the right PIN then restores all three. */
  lemma RightPinAfterTwoWrongResets(pin: string, opening: int, wrong: seq<string>)
    requires OpenStep(pin, opening).Ok?
    requires |wrong| == 2 && forall k :: 0 <= k < 2 ==> wrong[k] != pin
    ensures var s := VerifyAll(OpenStep(pin, opening).value, wrong);
      && s.status == Active && s.attempts == 1
      && VerifyPinStep(s, pin).accepted
      && VerifyPinStep(s, pin).state.attempts == MaxAttempts
  {
    var s := OpenStep(pin, opening).value;
    WrongPinsLock(s, wrong);
  }

  /** The operations a caller can run on one account. */
  datatype Op =
    | DepositOp(amount: int)
    | WithdrawOp(amount: int)
    | VerifyPinOp(pin: string)
    | ChangePinOp(pin: string)
    | ConsultBalanceOp(pin: string)
    | ConsultTransactionsOp(pin: string)

  function Apply(s: AccountState, op: Op): AccountState
  {
    match op
    case DepositOp(n) => DepositStep(s, n).state
    case WithdrawOp(n) => WithdrawStep(s, n).state
    case VerifyPinOp(p) => VerifyPinStep(s, p).state
    case ChangePinOp(p) => ChangePinStep(s, p).state
    case ConsultBalanceOp(p) => ConsultBalanceStep(s, p).state
    case ConsultTransactionsOp(p) => ConsultTransactionsStep(s, p).state
  }

  function Run(s: AccountState, ops: seq<Op>): AccountState
    decreases |ops|
  {
    if ops == [] then s else Run(Apply(s, ops[0]), ops[1..])
  }

  lemma ApplyPreservesInv(s: AccountState, op: Op)
    requires Inv(s)
    ensures Inv(Apply(s, op))
  {
    match op
    case DepositOp(n) => StepsPreserveInv(s, n, "");
    case WithdrawOp(n) => StepsPreserveInv(s, n, "");
    case VerifyPinOp(p) => StepsPreserveInv(s, 0, p);
    case ChangePinOp(p) => StepsPreserveInv(s, 0, p);
    case ConsultBalanceOp(p) => StepsPreserveInv(s, 0, p);
    case ConsultTransactionsOp(p) => StepsPreserveInv(s, 0, p);
  }

  /** After any sequence of operations the invariant holds; in particular the balance is never negative. */
  lemma {:induction false} RunPreservesInv(s: AccountState, ops: seq<Op>)
    requires Inv(s)
    ensures Inv(Run(s, ops)) && Run(s, ops).balance >= 0
    decreases |ops|
  {
    if ops != [] {
      ApplyPreservesInv(s, ops[0]);
      RunPreservesInv(Apply(s, ops[0]), ops[1..]);
    }
  }

  /** The log only grows: after any sequence of operations the old log is a prefix of the new one. */
  lemma {:induction false} RunLogGrows(s: AccountState, ops: seq<Op>)
    ensures s.log <= Run(s, ops).log
    decreases |ops|
  {
    if ops != [] {
      RunLogGrows(Apply(s, ops[0]), ops[1..]);
    }
  }

  /**
   * Deactivation is permanent: no operation reactivates an account (a PIN
   * change only restores the attempts), and an inactive account's balance and
   * log are frozen.
   */
  lemma {:induction false} InactiveIsFrozen(s: AccountState, ops: seq<Op>)
    requires s.status == Inactive
    ensures Run(s, ops).status == Inactive
    ensures Run(s, ops).balance == s.balance && Run(s, ops).log == s.log
    decreases |ops|
  {
    if ops != [] {
      InactiveIsFrozen(Apply(s, ops[0]), ops[1..]);
    }
  }

  // ---------------------------------------------------------------------------
  // Totals over the log (obtenerEstado and the controller's obtenerEstadoCuenta)
  // ---------------------------------------------------------------------------

  /** The four running totals the statement accumulates. */
  datatype Column = DepositAmounts | OtherAmounts | DepositCommissions | OtherCommissions

  /** What one record adds to a column: deposits on one side, every other kind on the other. */
  function Contribution(t: Transaction, col: Column): int
  {
    match col
    case DepositAmounts => if t.kind == Deposit then t.amount else 0
    case OtherAmounts => if t.kind != Deposit then t.amount else 0
    case DepositCommissions => if t.kind == Deposit && t.charged then t.commission else 0
    case OtherCommissions => if t.kind != Deposit && t.charged then t.commission else 0
  }

  function Total(log: seq<Transaction>, col: Column): int
    decreases |log|
  {
    if log == [] then 0 else Total(log[..|log| - 1], col) + Contribution(log[|log| - 1], col)
  }

  lemma TotalAppend(log: seq<Transaction>, t: Transaction, col: Column)
    ensures Total(log + [t], col) == Total(log, col) + Contribution(t, col)
  {
    assert (log + [t])[..|log|] == log;
  }

  /** The statement's figures: the deposit and withdrawal totals, the two commission totals and their sum. */
  datatype Totals = Totals(
    deposited: int,
    withdrawn: int,
    depositCommissions: int,
    withdrawalCommissions: int,
    commissions: int)

  /** The statement over a log: each column's total, and the commission grand total as the sum of the two. */
  function TotalsOf(log: seq<Transaction>): Totals
  {
    Totals(Total(log, DepositAmounts), Total(log, OtherAmounts),
           Total(log, DepositCommissions), Total(log, OtherCommissions),
           Total(log, DepositCommissions) + Total(log, OtherCommissions))
  }

  /** The loop of obtenerEstado: one pass over the log, adding each record to its columns. */
  method Tally(log: seq<Transaction>) returns (t: Totals)
    ensures t == TotalsOf(log)
  {
    var deposited, withdrawn, depositCommissions, withdrawalCommissions := 0, 0, 0, 0;
    for k := 0 to |log|
      invariant deposited == Total(log[..k], DepositAmounts)
      invariant withdrawn == Total(log[..k], OtherAmounts)
      invariant depositCommissions == Total(log[..k], DepositCommissions)
      invariant withdrawalCommissions == Total(log[..k], OtherCommissions)
    {
      var r := log[k];
      assert log[..k + 1][..k] == log[..k];
      if r.kind == Deposit {
        deposited := deposited + r.amount;
        if r.charged { depositCommissions := depositCommissions + r.commission; }
      } else {
        withdrawn := withdrawn + r.amount;
        if r.charged { withdrawalCommissions := withdrawalCommissions + r.commission; }
      }
    }
    assert log[..|log|] == log;
    t := Totals(deposited, withdrawn, depositCommissions, withdrawalCommissions,
                depositCommissions + withdrawalCommissions);
  }

  /** Deposits never pay commission, so the deposit-commission total of an account is always 0. */
  lemma {:induction false} DepositCommissionsZero(log: seq<Transaction>)
    requires forall k :: 0 <= k < |log| ==> Recorded(log[k])
    ensures Total(log, DepositCommissions) == 0
    decreases |log|
  {
    if log != [] {
      DepositCommissionsZero(log[..|log| - 1]);
    }
  }

  /** The balance agrees with the log: deposits minus withdrawals minus commissions. */
  predicate Balanced(s: AccountState) {
    s.balance == Total(s.log, DepositAmounts) - Total(s.log, OtherAmounts)
                 - Total(s.log, DepositCommissions) - Total(s.log, OtherCommissions)
  }

  /** Appending a record moves each column's total by that record's contribution. */
  lemma TotalsAppend(log: seq<Transaction>, t: Transaction)
    ensures forall col: Column :: Total(log + [t], col) == Total(log, col) + Contribution(t, col)
  {
    forall col: Column
      ensures Total(log + [t], col) == Total(log, col) + Contribution(t, col)
    {
      TotalAppend(log, t, col);
    }
  }

  /** A new account agrees with its log. */
  lemma OpenBalanced(pin: string, opening: int)
    requires OpenStep(pin, opening).Ok?
    ensures Balanced(OpenStep(pin, opening).value)
  {
    TotalsAppend([], Transaction(Deposit, opening, false, 0));
  }

  /** A deposit, accepted or refused, keeps the balance in agreement with the log. */
  lemma DepositKeepsBalanced(s: AccountState, amount: int)
    requires Balanced(s)
    ensures Balanced(DepositStep(s, amount).state)
  {
    if s.status == Active && amount > 0 {
      TotalsAppend(s.log, Transaction(Deposit, amount, false, 0));
    }
  }

  /**
   * A withdrawal keeps the balance in agreement with the log, except the
   * anomalous one, which debits without a record and so breaks it.
   */
  lemma WithdrawKeepsBalanced(s: AccountState, amount: int)
    requires Balanced(s)
    ensures WithdrawStep(s, amount).result != Err(InvalidCommission) ==> Balanced(WithdrawStep(s, amount).state)
    ensures WithdrawStep(s, amount).result == Err(InvalidCommission) ==> !Balanced(WithdrawStep(s, amount).state)
  {
    var w := WithdrawStep(s, amount);
    if w.result.Ok? {
      TotalsAppend(s.log, w.result.value);
    }
    WithdrawAnomaly(s, amount);
  }

  /**
   * An example: open with 10000 and PIN "123456", deposit 100 four
   * times (five records, none charged), then withdraw 1000: the commission is
   * 20 and the balance ends at 9380.
   */
  lemma CommissionExample()
    ensures OpenStep("123456", 10000).Ok?
    ensures var s := Run(OpenStep("123456", 10000).value,
                         [DepositOp(100), DepositOp(100), DepositOp(100), DepositOp(100)]);
      && |s.log| == 5 && s.balance == 10400
      && WithdrawStep(s, 1000).result == Ok(Transaction(Withdrawal, 1000, true, 20))
      && WithdrawStep(s, 1000).state.balance == 9380
  {
    assert ValidPin("123456");
    var s0 := OpenStep("123456", 10000).value;
    var ops := [DepositOp(100), DepositOp(100), DepositOp(100), DepositOp(100)];
    var s1 := Apply(s0, ops[0]);
    var s2 := Apply(s1, ops[1]);
    var s3 := Apply(s2, ops[2]);
    var s4 := Apply(s3, ops[3]);
    assert Run(s0, ops) == s4 by {
      assert ops[1..][1..][1..][1..] == [];
    }
    assert |s4.log| == 5 && s4.balance == 10400;
  }

  // ---------------------------------------------------------------------------
  // The stateful account
  // ---------------------------------------------------------------------------

  /** The process-wide counter SECUENCIA the constructor draws account numbers from. */
  class Numbering {
    var issued: nat

    constructor ()
      ensures issued == 0
    {
      issued := 0;
    }

    /** incrementAndGet */
    method Next() returns (n: nat)
      modifies this
      ensures issued == old(issued) + 1 && n == issued
    {
      issued := issued + 1;
      n := issued;
    }
  }

  class Account {
    const number: string
    /** The counter value the number was built from. */
    ghost const serial: nat
    const owner: Client
    var status: Status
    var balance: int
    var pin: Blob
    var attempts: int
    var log: seq<Transaction>

    function State(): AccountState
      reads this
    {
      AccountState(status, balance, pin, attempts, log)
    }

    ghost predicate Valid()
      reads this
    {
      Inv(State()) && number == AccountNumber(serial)
    }

    /** The constructor's assignments and its call of depositar, once Open has checked the arguments. */
    constructor (owner: Client, serial: nat, pinText: string, opening: int)
      requires ValidPin(pinText) && opening > 0
      ensures Valid() && Ok(State()) == OpenStep(pinText, opening)
      ensures this.owner == owner && this.serial == serial
    {
      this.owner := owner;
      this.serial := serial;
      number := AccountNumber(serial);
      status := Active;
      pin := Encrypt(pinText);
      attempts := MaxAttempts;
      balance := 0;
      log := [];
      new;
      var _ := Deposit(opening);
    }

    /**
     * new Cuenta(dueno, pinPlano, depositoInicial): checks the PIN and the
     * opening deposit before the counter moves, then numbers the account
     * "CTA" + the counter's next value and opens it.
     */
    static method Open(owner: Client, pinText: string, opening: int, numbering: Numbering) returns (r: Result<Account>)
      modifies numbering
      ensures r.Err? <==> OpenStep(pinText, opening).Err?
      ensures r.Err? ==> r.error == OpenStep(pinText, opening).error && numbering.issued == old(numbering.issued)
      ensures r.Ok? ==>
        && fresh(r.value) && r.value.Valid() && Ok(r.value.State()) == OpenStep(pinText, opening)
        && r.value.owner == owner
        && numbering.issued == old(numbering.issued) + 1
        && r.value.serial == numbering.issued && r.value.number == AccountNumber(numbering.issued)
    {
      if !ValidPin(pinText) {
        return Err(PinFormatInvalid);
      }
      if opening <= 0 {
        return Err(NonPositiveOpeningDeposit);
      }
      var n := numbering.Next();
      var a := new Account(owner, n, pinText, opening);
      r := Ok(a);
    }

    /** depositar */
    method Deposit(amount: int) returns (r: Result<()>)
      requires Valid()
      modifies this
      ensures Valid()
      ensures DepositStep(old(State()), amount) == Step(r, State())
    {
      if status != Active {
        return Err(AccountInactive);
      }
      if amount <= 0 {
        return Err(NonPositiveAmount);
      }
      balance := balance + amount;
      var record := NewTransaction(Kind.Deposit, amount, false, 0);
      match record {
        case Err(e) =>
          r := Err(e);
        case Ok(t) =>
          log := log + [t];
          r := Ok(());
      }
      StepsPreserveInv(old(State()), amount, "");
    }

    /** retirar */
    method Withdraw(amount: int) returns (r: Result<Transaction>)
      requires Valid()
      modifies this
      ensures Valid()
      ensures WithdrawStep(old(State()), amount) == Step(r, State())
    {
      if status != Active {
        return Err(AccountInactive);
      }
      if amount <= 0 {
        return Err(NonPositiveAmount);
      }
      var charged := |log| >= CommissionThreshold;
      var commission := if charged then TwoPercent(amount) else 0;
      var total := amount + commission;
      if balance < total {
        return Err(InsufficientFunds(balance, total));
      }
      balance := balance - total;
      var record := NewTransaction(Withdrawal, amount, charged, commission);
      match record {
        case Err(e) =>
          r := Err(e);
        case Ok(t) =>
          log := log + [t];
          r := Ok(t);
      }
      StepsPreserveInv(old(State()), amount, "");
    }

    /** cambiarPin */
    method ChangePin(newPin: string) returns (r: Result<()>)
      requires Valid()
      modifies this
      ensures Valid()
      ensures ChangePinStep(old(State()), newPin) == Step(r, State())
    {
      if !ValidPin(newPin) {
        return Err(PinFormatInvalid);
      }
      pin := Encrypt(newPin);
      attempts := MaxAttempts;
      r := Ok(());
    }

    /** verificarPin */
    method VerifyPin(pinText: string) returns (ok: bool)
      requires Valid()
      modifies this
      ensures Valid()
      ensures VerifyPinStep(old(State()), pinText) == Verdict(ok, State())
    {
      if status == Inactive {
        return false;
      }
      var actual := Decrypt(pin);
      if actual == pinText {
        attempts := MaxAttempts;
        return true;
      }
      attempts := attempts - 1;
      if attempts <= 0 {
        status := Inactive;
      }
      ok := false;
    }

    /** consultarSaldo */
    method ConsultBalance(pinText: string) returns (r: Result<int>)
      requires Valid()
      modifies this
      ensures Valid()
      ensures ConsultBalanceStep(old(State()), pinText) == Step(r, State())
    {
      var ok := VerifyPin(pinText);
      if !ok {
        return Err(PinRejected);
      }
      r := Ok(balance);
    }

    /** consultarTransacciones (a sequence is a value, so the copy is implicit) */
    method ConsultTransactions(pinText: string) returns (r: Result<seq<Transaction>>)
      requires Valid()
      modifies this
      ensures Valid()
      ensures ConsultTransactionsStep(old(State()), pinText) == Step(r, State())
    {
      var ok := VerifyPin(pinText);
      if !ok {
        return Err(PinRejected);
      }
      r := Ok(log);
    }

    /** The totals of obtenerEstado, over the whole log and with no PIN check. */
    method Statement() returns (t: Totals)
      ensures t == TotalsOf(log)
    {
      t := Tally(log);
    }
  }
}
