/**
 * The controller (ControladorCajero): the lists of clients and accounts, the
 * lookups in them, and the flows that sequence checks before money moves.
 * Persistence calls are no-ops; the SMS code the service sends is a
 * parameter of the operations that ask for it.
 */
module Controller {
  import opened Outcomes
  import opened Seqs
  import opened Validation
  import opened Cipher
  import opened Transactions
  import opened Clients
  import opened Accounts

  // ---------------------------------------------------------------------------
  // Lookups (buscarCuenta, buscarCliente)
  // ---------------------------------------------------------------------------

  function Numbers(accounts: seq<Account>): (ns: seq<string>)
    ensures |ns| == |accounts| && forall k :: 0 <= k < |accounts| ==> ns[k] == accounts[k].number
  {
    seq(|accounts|, k requires 0 <= k < |accounts| => accounts[k].number)
  }

  function Identifications(clients: seq<Client>): (ids: seq<string>)
    reads clients
    ensures |ids| == |clients| && forall k :: 0 <= k < |clients| ==> ids[k] == clients[k].identification
  {
    seq(|clients|, k requires 0 <= k < |clients| reads clients => clients[k].identification)
  }

  /** buscarCuenta: the position of the first account with that number, or AccountNotFound(number). */
  function FindAccount(accounts: seq<Account>, number: string): (r: Result<nat>)
    ensures r.Err? <==> forall k :: 0 <= k < |accounts| ==> accounts[k].number != number
    ensures r.Err? ==> r.error == AccountNotFound(number)
    ensures r.Ok? ==>
      && r.value < |accounts| && accounts[r.value].number == number
      && forall k :: 0 <= k < r.value ==> accounts[k].number != number
  {
    match FirstIndex(Numbers(accounts), number)
    case None => Err(AccountNotFound(number))
    case Some(i) => Ok(i)
  }

  /** buscarCliente: the position of the first client with that identification, or ClientNotFound. */
  function FindClient(clients: seq<Client>, id: string): (r: Result<nat>)
    reads clients
    ensures r.Err? <==> forall k :: 0 <= k < |clients| ==> clients[k].identification != id
    ensures r.Err? ==> r.error == ClientNotFound
    ensures r.Ok? ==>
      && r.value < |clients| && clients[r.value].identification == id
      && forall k :: 0 <= k < r.value ==> clients[k].identification != id
  {
    match FirstIndex(Identifications(clients), id)
    case None => Err(ClientNotFound)
    case Some(i) => Ok(i)
  }

  /**
   * crearCliente does not look for duplicates: a second client with an
   * identification already present is appended, and lookups keep finding
   * the first one.
   */
  lemma DuplicateClientShadowed(clients: seq<Client>, c: Client, id: string)
    requires FindClient(clients, id).Ok?
    ensures FindClient(clients + [c], id) == FindClient(clients, id)
  {
    var i := FindClient(clients, id).value;
    var ids := Identifications(clients + [c]);
    assert ids[i] == id;
    assert forall k :: 0 <= k < i ==> ids[k] != id;
    FirstIndexAt(ids, id, i);
  }

  // ---------------------------------------------------------------------------
  // The flows on account states
  // ---------------------------------------------------------------------------

  /**
   * retirarConSms on one account: the PIN check first (a wrong PIN is refused
   * and uses up an attempt), then the SMS code (a mismatch is refused with the
   * balance and the log untouched), and only then the withdrawal.
   */
  function WithdrawWithSmsStep(s: AccountState, pin: string, codeMatches: bool, amount: int): (r: Step<Transaction>)
    ensures !VerifyPinStep(s, pin).accepted ==> r == Step(Err(PinRejected), VerifyPinStep(s, pin).state)
    ensures VerifyPinStep(s, pin).accepted && !codeMatches ==>
      r == Step(Err(SmsCodeMismatch), s.(attempts := MaxAttempts))
    ensures VerifyPinStep(s, pin).accepted && codeMatches ==>
      r == WithdrawStep(s.(attempts := MaxAttempts), amount)
    ensures r.result.Ok? ==> s.status == Active && Decrypt(s.pin) == pin && codeMatches
    ensures r.state.balance != s.balance ==> s.status == Active && Decrypt(s.pin) == pin && codeMatches
  {
    var v := VerifyPinStep(s, pin);
    if !v.accepted then Step(Err(PinRejected), v.state)
    else if !codeMatches then Step(Err(SmsCodeMismatch), v.state)
    else WithdrawStep(v.state, amount)
  }

  /** What a transfer returns, with the new states of the origin and of the destination. */
  datatype TransferStep = TransferStep(result: Result<()>, origin: AccountState, dest: AccountState)

  /**
   * transferir on the two accounts' states. The owners are compared before
   * anything else, so a mismatch uses up no attempt. Then comes the origin's
   * PIN and SMS checks and its withdrawal, and last the destination's
   * deposit, with no rollback when the deposit is refused. When both numbers
   * name one account (`aliased`) the deposit sees the withdrawal's state, and
   * origin and dest both hold the final state.
   */
  function TransferSpec(sameOwner: bool, aliased: bool, o: AccountState, d: AccountState,
                        pin: string, codeMatches: bool, amount: int): (r: TransferStep)
    requires aliased ==> sameOwner && o == d
    ensures !sameOwner ==> r == TransferStep(Err(DifferentOwners), o, d)
    ensures aliased ==> r.origin == r.dest
    ensures r.result.Ok? ==> sameOwner && o.status == Active && Decrypt(o.pin) == pin && codeMatches && amount > 0
    ensures !aliased && r.result.Ok? ==>
      && r.origin == o.(attempts := MaxAttempts,
                        balance := o.balance - amount - Commission(|o.log|, amount),
                        log := o.log + [Transaction(Withdrawal, amount, |o.log| >= CommissionThreshold, Commission(|o.log|, amount))])
      && r.dest == d.(balance := d.balance + amount, log := d.log + [Transaction(Deposit, amount, false, 0)])
    ensures sameOwner && WithdrawWithSmsStep(o, pin, codeMatches, amount).result.Err? ==>
      var w := WithdrawWithSmsStep(o, pin, codeMatches, amount);
      && r.result == Err(w.result.error) && r.origin == w.state
      && (!aliased ==> r.dest == d)
    ensures sameOwner && !aliased && WithdrawWithSmsStep(o, pin, codeMatches, amount).result.Ok? ==>
      var w := WithdrawWithSmsStep(o, pin, codeMatches, amount);
      && r.origin == w.state
      && r.result == DepositStep(d, amount).result && r.dest == DepositStep(d, amount).state
    ensures && sameOwner && o.status == Active && Decrypt(o.pin) == pin && codeMatches
            && amount > 0 && o.balance >= amount + Commission(|o.log|, amount)
            && (|o.log| < CommissionThreshold || amount >= 25)
            && (aliased || d.status == Active)
            ==> r.result.Ok?
  {
    if !sameOwner then TransferStep(Err(DifferentOwners), o, d)
    else
      var w := WithdrawWithSmsStep(o, pin, codeMatches, amount);
      var d1 := if aliased then w.state else d;
      if w.result.Err? then TransferStep(Err(w.result.error), w.state, d1)
      else
        var c := DepositStep(d1, amount);
        TransferStep(c.result, if aliased then c.state else w.state, c.state)
  }

  /**
   * No rollback: when every check passes and the origin covers the amount
   * but the destination is inactive, the transfer is refused while the
   * origin keeps the whole withdrawal (attempts restored, debit, record) and
   * the destination is untouched.
   */
  lemma TransferNoRollback(o: AccountState, d: AccountState, pin: string, amount: int)
    requires o.status == Active && Decrypt(o.pin) == pin && amount > 0
    requires o.balance >= amount + Commission(|o.log|, amount)
    requires |o.log| < CommissionThreshold || amount >= 25
    requires d.status == Inactive
    ensures var t := TransferSpec(true, false, o, d, pin, true, amount);
      && t.result == Err(AccountInactive)
      && t.origin == o.(attempts := MaxAttempts,
                        balance := o.balance - amount - Commission(|o.log|, amount),
                        log := o.log + [Transaction(Withdrawal, amount, |o.log| >= CommissionThreshold, Commission(|o.log|, amount))])
      && t.dest == d
  {
    var o1 := o.(attempts := MaxAttempts);
    WithdrawAnomaly(o1, amount);
    assert WithdrawStep(o1, amount).result.Ok?;
  }

  /**
   * A transfer to the account itself that succeeds restores its attempts,
   * lowers the balance by exactly the withdrawal's commission, logs a
   * withdrawal and then a deposit of the amount, and changes nothing else.
   */
  lemma SelfTransferCostsCommission(o: AccountState, pin: string, amount: int)
    requires TransferSpec(true, true, o, o, pin, true, amount).result.Ok?
    ensures var t := TransferSpec(true, true, o, o, pin, true, amount);
      && t.origin == t.dest
      && t.origin == o.(attempts := MaxAttempts,
                        balance := o.balance - Commission(|o.log|, amount),
                        log := o.log + [Transaction(Withdrawal, amount, |o.log| >= CommissionThreshold, Commission(|o.log|, amount)),
                                        Transaction(Deposit, amount, false, 0)])
  {
    var w := WithdrawWithSmsStep(o, pin, true, amount);
    assert w.result.Ok?;
  }

  // ---------------------------------------------------------------------------
  // The account list
  // ---------------------------------------------------------------------------

  /**
   * Every account is valid and was numbered by the shared counter, which has
   * issued `issued` values so far, each with a counter value of its own.
   */
  ghost predicate ValidList(accs: seq<Account>, issued: nat)
    reads accs
  {
    && (forall k :: 0 <= k < |accs| ==> accs[k].Valid() && 1 <= accs[k].serial <= issued)
    && (forall j, k :: 0 <= j < k < |accs| ==> accs[j].serial != accs[k].serial)
  }

  function StatesOf(accs: seq<Account>): (ss: seq<AccountState>)
    reads accs
    ensures |ss| == |accs| && forall k :: 0 <= k < |accs| ==> ss[k] == accs[k].State()
  {
    seq(|accs|, k requires 0 <= k < |accs| reads accs => accs[k].State())
  }

  /**
   * Removing the account at position i keeps the list valid, keeps the other
   * accounts' states in order, and leaves no account with the removed number.
   */
  lemma RemoveKeepsValid(accs: seq<Account>, issued: nat, i: nat)
    requires ValidList(accs, issued) && i < |accs|
    ensures var rest := accs[..i] + accs[i + 1..];
      && ValidList(rest, issued)
      && StatesOf(rest) == StatesOf(accs)[..i] + StatesOf(accs)[i + 1..]
      && forall k :: 0 <= k < |rest| ==> rest[k].number != accs[i].number
  {
    var rest := accs[..i] + accs[i + 1..];
    assert forall k :: 0 <= k < |rest| ==> rest[k] == accs[if k < i then k else k + 1];
    StatesOfRemove(accs, i);
    forall k | 0 <= k < |rest|
      ensures rest[k].number != accs[i].number
    {
      if rest[k].number == accs[i].number {
        AccountNumberInjective(rest[k].serial, accs[i].serial);
      }
    }
  }

  /** Two updates in a row, the second perhaps at the same position as the first. */
  lemma UpdateTwice<T>(s0: seq<T>, s1: seq<T>, s2: seq<T>, i: nat, j: nat, a: T, b: T)
    requires i < |s0| && j < |s0| && s1 == s0[i := a] && s2 == s1[j := b]
    ensures s2 == s0[i := if i == j then b else a][j := b]
  {
  }

  lemma StatesOfRemove(accs: seq<Account>, i: nat)
    requires i < |accs|
    ensures StatesOf(accs[..i] + accs[i + 1..]) == StatesOf(accs)[..i] + StatesOf(accs)[i + 1..]
  {
    var rest := accs[..i] + accs[i + 1..];
    assert forall k :: 0 <= k < |rest| ==> rest[k] == accs[if k < i then k else k + 1];
  }

  // ---------------------------------------------------------------------------
  // The controller object
  // ---------------------------------------------------------------------------

  class Atm {
    var clients: seq<Client>
    var accounts: seq<Account>
    /** The shared counter account numbers are drawn from. */
    const numbering: Numbering

    /**
     * Every account is valid and was numbered by the shared counter, each
     * with a counter value of its own.
     */
    ghost predicate Valid()
      reads this, accounts, numbering
    {
      ValidList(accounts, numbering.issued)
    }

    /** The states of the accounts, in list order. */
    function States(): (ss: seq<AccountState>)
      reads this, accounts
      ensures |ss| == |accounts| && forall k :: 0 <= k < |accounts| ==> ss[k] == accounts[k].State()
    {
      StatesOf(accounts)
    }

    /** No two accounts in the list share a number. */
    lemma NumbersDistinct()
      requires Valid()
      ensures forall j, k :: 0 <= j < |accounts| && 0 <= k < |accounts| && j != k ==>
        accounts[j].number != accounts[k].number
    {
      forall j, k | 0 <= j < |accounts| && 0 <= k < |accounts| && j != k
        ensures accounts[j].number != accounts[k].number
      {
        if accounts[j].number == accounts[k].number {
          AccountNumberInjective(accounts[j].serial, accounts[k].serial);
        }
      }
    }

    /** The persistence load is not modelled: the controller starts with no clients and no accounts. */
    constructor (numbering: Numbering)
      ensures this.numbering == numbering && clients == [] && accounts == [] && Valid()
    {
      this.numbering := numbering;
      clients := [];
      accounts := [];
    }

    /** crearCliente: appends the client the checks accept, without looking for duplicates. */
    method CreateClient(fullName: string, identification: string, phone: string, email: string)
      returns (r: Result<Client>)
      requires Valid()
      modifies this
      ensures Valid() && accounts == old(accounts)
      ensures r.Err? <==> CheckClient(fullName, identification, phone, email).Err?
      ensures r.Err? ==> r.error == CheckClient(fullName, identification, phone, email).error && clients == old(clients)
      ensures r.Ok? ==>
        && fresh(r.value) && r.value.Fields() == CheckClient(fullName, identification, phone, email).value
        && clients == old(clients) + [r.value]
    {
      r := Client.Create(fullName, identification, phone, email);
      if r.Ok? {
        clients := clients + [r.value];
      }
      AccountsKept();
    }

    /**
     * crearCuenta: looks the client up, checks the PIN's format, then opens
     * the account (which refuses a non-positive deposit) and appends it.
     */
    method CreateAccount(id: string, pin: string, opening: int) returns (r: Result<()>)
      requires Valid()
      modifies this, numbering
      ensures Valid() && clients == old(clients)
      ensures old(FindClient(clients, id)).Err? ==> r == Err(ClientNotFound)
      ensures old(FindClient(clients, id)).Ok? && !ValidPin(pin) ==> r == Err(PinFormatInvalid)
      ensures old(FindClient(clients, id)).Ok? && ValidPin(pin) && opening <= 0 ==> r == Err(NonPositiveOpeningDeposit)
      ensures r.Ok? <==> old(FindClient(clients, id)).Ok? && OpenStep(pin, opening).Ok?
      ensures r.Err? ==> accounts == old(accounts)
      ensures r.Ok? ==>
        && |accounts| == |old(accounts)| + 1 && accounts[..|old(accounts)|] == old(accounts)
        && fresh(accounts[|old(accounts)|])
        && accounts[|old(accounts)|].owner == clients[old(FindClient(clients, id)).value]
        && Ok(accounts[|old(accounts)|].State()) == OpenStep(pin, opening)
        && States()[..|old(accounts)|] == old(States())
      ensures r.Err? ==> numbering.issued == old(numbering.issued)
      ensures r.Ok? ==>
        && numbering.issued == old(numbering.issued) + 1
        && accounts[|old(accounts)|].number == AccountNumber(numbering.issued)
    {
      var found := FindClient(clients, id);
      if found.Err? {
        return Err(found.error);
      }
      if !ValidPin(pin) {
        return Err(PinFormatInvalid);
      }
      var made := Account.Open(clients[found.value], pin, opening, numbering);
      if made.Err? {
        return Err(made.error);
      }
      accounts := accounts + [made.value];
      AppendedKept(made.value);
      r := Ok(());
    }

    /** cambiarPin: no check of the current PIN; the account's own change of PIN decides. */
    method ChangePin(number: string, currentPin: string, newPin: string) returns (r: Result<()>)
      requires Valid()
      modifies accounts
      ensures Valid() && unchanged(this)
      ensures FindAccount(accounts, number).Err? ==> r == Err(AccountNotFound(number)) && States() == old(States())
      ensures FindAccount(accounts, number).Ok? ==>
        var i := FindAccount(accounts, number).value;
        && ChangePinStep(old(States())[i], newPin) == Step(r, States()[i])
        && States() == old(States())[i := States()[i]]
    {
      var found := FindAccount(accounts, number);
      if found.Err? {
        return Err(found.error);
      }
      var i := found.value;
      r := accounts[i].ChangePin(newPin);
      OthersKept(i);
    }

    /** depositarColones: no PIN is asked for. */
    method DepositColones(number: string, amount: int) returns (r: Result<()>)
      requires Valid()
      modifies accounts
      ensures Valid() && unchanged(this)
      ensures FindAccount(accounts, number).Err? ==> r == Err(AccountNotFound(number)) && States() == old(States())
      ensures FindAccount(accounts, number).Ok? ==>
        var i := FindAccount(accounts, number).value;
        && DepositStep(old(States())[i], amount) == Step(r, States()[i])
        && States() == old(States())[i := States()[i]]
    {
      var found := FindAccount(accounts, number);
      if found.Err? {
        return Err(found.error);
      }
      r := DepositAt(found.value, amount);
    }

    /** retirarConSms, where `sent` is the code the SMS service sent to the owner's phone. */
    method WithdrawWithSms(number: string, pin: string, code: string, sent: string, amount: int)
      returns (r: Result<Transaction>)
      requires Valid()
      modifies accounts
      ensures Valid() && unchanged(this)
      ensures FindAccount(accounts, number).Err? ==> r == Err(AccountNotFound(number)) && States() == old(States())
      ensures FindAccount(accounts, number).Ok? ==>
        var i := FindAccount(accounts, number).value;
        && WithdrawWithSmsStep(old(States())[i], pin, code == sent, amount) == Step(r, States()[i])
        && States() == old(States())[i := States()[i]]
    {
      var found := FindAccount(accounts, number);
      if found.Err? {
        return Err(found.error);
      }
      r := WithdrawWithSmsAt(found.value, pin, code == sent, amount);
    }

    /** consultarSaldo */
    method ConsultBalance(number: string, pin: string) returns (r: Result<int>)
      requires Valid()
      modifies accounts
      ensures Valid() && unchanged(this)
      ensures FindAccount(accounts, number).Err? ==> r == Err(AccountNotFound(number)) && States() == old(States())
      ensures FindAccount(accounts, number).Ok? ==>
        var i := FindAccount(accounts, number).value;
        && ConsultBalanceStep(old(States())[i], pin) == Step(r, States()[i])
        && States() == old(States())[i := States()[i]]
    {
      var found := FindAccount(accounts, number);
      if found.Err? {
        return Err(found.error);
      }
      var i := found.value;
      r := accounts[i].ConsultBalance(pin);
      OthersKept(i);
    }

    /** consultarTransacciones */
    method ConsultTransactions(number: string, pin: string) returns (r: Result<seq<Transaction>>)
      requires Valid()
      modifies accounts
      ensures Valid() && unchanged(this)
      ensures FindAccount(accounts, number).Err? ==> r == Err(AccountNotFound(number)) && States() == old(States())
      ensures FindAccount(accounts, number).Ok? ==>
        var i := FindAccount(accounts, number).value;
        && ConsultTransactionsStep(old(States())[i], pin) == Step(r, States()[i])
        && States() == old(States())[i := States()[i]]
    {
      var found := FindAccount(accounts, number);
      if found.Err? {
        return Err(found.error);
      }
      var i := found.value;
      r := accounts[i].ConsultTransactions(pin);
      OthersKept(i);
    }

    /**
     * consultarEstadoCuenta: runs the PIN check but ignores its outcome, so
     * the status is returned even for a wrong PIN, after that PIN has used
     * up an attempt.
     */
    method ConsultStatus(number: string, pin: string) returns (r: Result<Status>)
      requires Valid()
      modifies accounts
      ensures Valid() && unchanged(this)
      ensures FindAccount(accounts, number).Err? ==> r == Err(AccountNotFound(number)) && States() == old(States())
      ensures FindAccount(accounts, number).Ok? ==>
        var i := FindAccount(accounts, number).value;
        && States()[i] == VerifyPinStep(old(States())[i], pin).state
        && r == Ok(States()[i].status)
        && States() == old(States())[i := States()[i]]
    {
      var found := FindAccount(accounts, number);
      if found.Err? {
        return Err(found.error);
      }
      var i := found.value;
      var _ := accounts[i].VerifyPin(pin);
      r := Ok(accounts[i].status);
      OthersKept(i);
    }

    /** obtenerEstadoCuenta: the totals over the account's whole log, once the PIN check accepts. */
    method AccountSummary(number: string, pin: string) returns (r: Result<Totals>)
      requires Valid()
      modifies accounts
      ensures Valid() && unchanged(this)
      ensures FindAccount(accounts, number).Err? ==> r == Err(AccountNotFound(number)) && States() == old(States())
      ensures FindAccount(accounts, number).Ok? ==>
        var i := FindAccount(accounts, number).value;
        var v := VerifyPinStep(old(States())[i], pin);
        && States() == old(States())[i := v.state]
        && (r.Ok? <==> v.accepted)
        && (r.Err? ==> r.error == PinRejected)
        && (r.Ok? ==> r.value == TotalsOf(old(States())[i].log))
    {
      var found := FindAccount(accounts, number);
      if found.Err? {
        return Err(found.error);
      }
      var i := found.value;
      var a := accounts[i];
      var ok := a.VerifyPin(pin);
      if !ok {
        r := Err(PinRejected);
      } else {
        var t := Tally(a.log);
        r := Ok(t);
      }
      OthersKept(i);
    }

    /**
     * transferir, where `sent` is the code the SMS service sent to the
     * origin's owner. Both numbers are looked up first; the rest is
     * TransferSpec on the two accounts' states.
     */
    method Transfer(originNumber: string, pin: string, code: string, sent: string, destNumber: string, amount: int)
      returns (r: Result<()>)
      requires Valid()
      modifies accounts
      ensures Valid() && unchanged(this)
      ensures FindAccount(accounts, originNumber).Err? ==>
        r == Err(AccountNotFound(originNumber)) && States() == old(States())
      ensures FindAccount(accounts, originNumber).Ok? && FindAccount(accounts, destNumber).Err? ==>
        r == Err(AccountNotFound(destNumber)) && States() == old(States())
      ensures FindAccount(accounts, originNumber).Ok? && FindAccount(accounts, destNumber).Ok? ==>
        var i := FindAccount(accounts, originNumber).value;
        var j := FindAccount(accounts, destNumber).value;
        var t := TransferSpec(old(accounts[i].owner.identification == accounts[j].owner.identification), i == j,
                              old(States())[i], old(States())[j], pin, code == sent, amount);
        && r == t.result
        && States() == old(States())[i := t.origin][j := t.dest]
    {
      var fo := FindAccount(accounts, originNumber);
      if fo.Err? {
        return Err(fo.error);
      }
      var fd := FindAccount(accounts, destNumber);
      if fd.Err? {
        return Err(fd.error);
      }
      r := TransferAt(fo.value, fd.value, pin, code == sent, amount);
    }

    /** transferir once both accounts are found, at positions i and j. */
    method TransferAt(i: nat, j: nat, pin: string, codeMatches: bool, amount: int) returns (r: Result<()>)
      requires Valid() && i < |accounts| && j < |accounts|
      modifies accounts
      ensures Valid() && unchanged(this)
      ensures var t := TransferSpec(old(accounts[i].owner.identification == accounts[j].owner.identification), i == j,
                                    old(States())[i], old(States())[j], pin, codeMatches, amount);
        && r == t.result
        && States() == old(States())[i := t.origin][j := t.dest]
    {
      if accounts[i].owner.identification != accounts[j].owner.identification {
        return Err(DifferentOwners);
      }
      ghost var s0 := States();
      var w := WithdrawWithSmsAt(i, pin, codeMatches, amount);
      ghost var s1 := States();
      ghost var ws := WithdrawWithSmsStep(s0[i], pin, codeMatches, amount);
      if w.Err? {
        assert s1 == s0[i := ws.state][j := if i == j then ws.state else s0[j]];
        r := Err(w.error);
        return;
      }
      ghost var d1 := if i == j then ws.state else s0[j];
      assert s1[j] == d1;
      r := DepositAt(j, amount);
      ghost var c := DepositStep(d1, amount);
      ghost var s2 := States();
      assert c == Step(r, s2[j]);
      UpdateTwice(s0, s1, s2, i, j, ws.state, c.state);
    }

    /**
     * eliminarCuenta: once the PIN check accepts, the account leaves the
     * list, the others keep their order, and its number no longer resolves.
     */
    method DeleteAccount(number: string, pin: string) returns (r: Result<()>)
      requires Valid()
      modifies this, accounts
      ensures Valid() && clients == old(clients)
      ensures FindAccount(old(accounts), number).Err? ==>
        r == Err(AccountNotFound(number)) && accounts == old(accounts) && States() == old(States())
      ensures FindAccount(old(accounts), number).Ok? ==>
        var i := FindAccount(old(accounts), number).value;
        var v := VerifyPinStep(old(States())[i], pin);
        && (r.Ok? <==> v.accepted)
        && (r.Err? ==> r.error == PinRejected && accounts == old(accounts) && States() == old(States())[i := v.state])
        && (r.Ok? ==>
              && accounts == old(accounts)[..i] + old(accounts)[i + 1..]
              && States() == old(States())[..i] + old(States())[i + 1..]
              && FindAccount(accounts, number).Err?)
    {
      var found := FindAccount(accounts, number);
      if found.Err? {
        return Err(found.error);
      }
      var i := found.value;
      var ok := accounts[i].VerifyPin(pin);
      OthersKept(i);
      if !ok {
        return Err(PinRejected);
      }
      RemoveAt(i);
      r := Ok(());
    }

    /** cambiarTelefono: the client's own setter decides; no other client changes. */
    method ChangePhone(id: string, phone: string) returns (r: Result<()>)
      requires Valid()
      modifies clients
      ensures Valid() && unchanged(this)
      ensures old(FindClient(clients, id)).Err? ==>
        r == Err(ClientNotFound) && forall c :: c in clients ==> c.Fields() == old(c.Fields())
      ensures old(FindClient(clients, id)).Ok? ==>
        var c := clients[old(FindClient(clients, id)).value];
        && (r.Ok? <==> ValidPhone(phone))
        && (r.Err? ==> r.error == PhoneFormatInvalid && c.Fields() == old(c.Fields()))
        && (r.Ok? ==> c.Fields() == old(c.Fields()).(phone := phone))
        && forall d :: d in clients && d != c ==> d.Fields() == old(d.Fields())
    {
      var found := FindClient(clients, id);
      if found.Err? {
        return Err(found.error);
      }
      r := clients[found.value].SetPhone(phone);
    }

    /** cambiarEmail: the client's own setter decides; no other client changes. */
    method ChangeEmail(id: string, email: string) returns (r: Result<()>)
      requires Valid()
      modifies clients
      ensures Valid() && unchanged(this)
      ensures old(FindClient(clients, id)).Err? ==>
        r == Err(ClientNotFound) && forall c :: c in clients ==> c.Fields() == old(c.Fields())
      ensures old(FindClient(clients, id)).Ok? ==>
        var c := clients[old(FindClient(clients, id)).value];
        && (r.Ok? <==> ValidEmail(email))
        && (r.Err? ==> r.error == EmailFormatInvalid && c.Fields() == old(c.Fields()))
        && (r.Ok? ==> c.Fields() == old(c.Fields()).(email := email))
        && forall d :: d in clients && d != c ==> d.Fields() == old(d.Fields())
    {
      var found := FindClient(clients, id);
      if found.Err? {
        return Err(found.error);
      }
      r := clients[found.value].SetEmail(email);
    }

    /** depositar on the account at position i. */
    method DepositAt(i: nat, amount: int) returns (r: Result<()>)
      requires Valid() && i < |accounts|
      modifies accounts
      ensures Valid() && unchanged(this)
      ensures DepositStep(old(States())[i], amount) == Step(r, States()[i])
      ensures States() == old(States())[i := States()[i]]
    {
      r := accounts[i].Deposit(amount);
      OthersKept(i);
    }

    /** The PIN check, the SMS check and the withdrawal of retirarConSms, on the account at position i. */
    method WithdrawWithSmsAt(i: nat, pin: string, codeMatches: bool, amount: int) returns (r: Result<Transaction>)
      requires Valid() && i < |accounts|
      modifies accounts
      ensures Valid() && unchanged(this)
      ensures WithdrawWithSmsStep(old(States())[i], pin, codeMatches, amount) == Step(r, States()[i])
      ensures States() == old(States())[i := States()[i]]
    {
      var a := accounts[i];
      var ok := a.VerifyPin(pin);
      if !ok {
        r := Err(PinRejected);
      } else if !codeMatches {
        r := Err(SmsCodeMismatch);
      } else {
        r := a.Withdraw(amount);
      }
      OthersKept(i);
    }

    /** cuentas.remove: the account at position i leaves the list, and its number with it. */
    method RemoveAt(i: nat)
      requires Valid() && i < |accounts|
      modifies this
      ensures Valid() && clients == old(clients)
      ensures accounts == old(accounts)[..i] + old(accounts)[i + 1..]
      ensures States() == old(States())[..i] + old(States())[i + 1..]
      ensures forall k :: 0 <= k < |accounts| ==> accounts[k].number != old(accounts)[i].number
    {
      RemoveKeepsValid(accounts, numbering.issued, i);
      accounts := accounts[..i] + accounts[i + 1..];
    }

    /** When no account changed, the list is still valid. */
    twostate lemma AccountsKept()
      requires old(Valid())
      requires accounts == old(accounts) && numbering.issued == old(numbering.issued)
      requires forall k :: 0 <= k < |accounts| ==> unchanged(accounts[k])
      ensures Valid()
    {
    }

    /** After a new account, numbered by the counter's latest value, is added at the end, the list is valid again. */
    twostate lemma AppendedKept(new a: Account)
      requires old(Valid())
      requires accounts == old(accounts) + [a] && numbering.issued == old(numbering.issued) + 1
      requires a.Valid() && a.serial == numbering.issued
      requires forall k :: 0 <= k < |old(accounts)| ==> unchanged(old(accounts)[k])
      ensures Valid() && States()[..|old(accounts)|] == old(States())
    {
      assert forall k :: 0 <= k < |old(accounts)| ==> accounts[k] == old(accounts)[k];
    }

    /**
     * After one account's method has run: the other accounts, being other
     * objects, kept their states, and the list is valid again.
     */
    twostate lemma OthersKept(i: nat)
      requires old(Valid()) && i < |accounts|
      requires accounts == old(accounts) && numbering.issued == old(numbering.issued)
      requires accounts[i].Valid()
      requires forall k :: 0 <= k < |accounts| && k != i ==> unchanged(accounts[k])
      ensures Valid()
      ensures States() == old(States())[i := accounts[i].State()]
    {
    }
  }
}
