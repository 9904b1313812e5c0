# ATM accounts, modelled in Dafny

A model of the core of a Java automated-teller application for accounts in
colones. It covers:

- the state machine of one account (`Cuenta`): balance, encrypted PIN, a lockout
  after three wrong PINs, deposits, withdrawals with a 2 % commission from the
  sixth record on, and an append-only log of records;
- the record value (`Transaccion`) with its constructor checks;
- the format checks for PINs, phone numbers and e-mail addresses (`Validacion`);
- the client entity (`Cliente`), with its checked constructor and setters;
- the controller (`ControladorCajero`), which keeps the lists of clients and
  accounts, looks entries up in them, and runs the checks in order before any
  money moves: same owner, then PIN, then SMS code, then withdrawal and deposit;
- the enumerations `EstadoCuenta` and `TipoTransaccion`.

Files, one module each:

| file | module | models |
|---|---|---|
| outcomes.dfy | Outcomes | `Option`, `Result`, and `Error`, with one variant per exception the core throws |
| seqs.dfy | Seqs | find-first and find-last over sequences |
| decimal.dfy | Decimal | decimal text of a natural number (`String.valueOf`) |
| validation.dfy | Validation | `Validacion` |
| cipher.dfy | Cipher | `Cifrado`, as an abstract encrypt/decrypt pair |
| transactions.dfy | Transactions | `Transaccion`, `TipoTransaccion` |
| clients.dfy | Clients | `Cliente`, Java's `isBlank` and `trim` |
| accounts.dfy | Accounts | `Cuenta`, `EstadoCuenta`, the `SECUENCIA` counter |
| controller.dfy | Controller | `ControladorCajero` |

How the account is modelled:

- Every operation of `Cuenta` is a pure step function on an `AccountState`.
  The step function returns the caller-visible `Result` together with the new
  state.
- The class `Account` holds the same fields and updates them in place. Each
  method is proved to move the fields exactly as its step function does
  (`ensures DepositStep(old(State()), amount) == Step(r, State())`).
- The properties are lemmas about the step functions: the invariant is
  preserved, the commission rule holds, the lockout works, the log only grows,
  and deactivation is permanent.
- The controller's methods are tied the same way to the step functions of the
  account they found. For list-level effects they state `States()`, the states
  of all accounts in list order.
- The static counter `SECUENCIA` is a `Numbering` object shared by all accounts.
  Each account records its counter value as a ghost `serial`. The controller's
  invariant keeps serials distinct, so account numbers are distinct.
- Java exceptions are `Err` values. Where the source throws after part of a
  change has already happened, the model keeps that partial change, as the
  source does.
- Persistence calls are no-ops. The SMS code the service sends is a parameter
  (`sent`).

The format checks are predicates over strings, one per pattern:

- `Validation.ValidPin` is `validarPin`: exactly six ASCII digits.
- `Validation.ValidPhone` is `validarTelefono`: exactly eight ASCII digits.
- `Validation.ValidEmail` is both `validarCorreo` and `validarEmail`, which
  match the same pattern. It decides the pattern at the first `@` and the last
  dot; `Validation.ValidEmailIsPattern` proves this agrees with the regular
  expression read as "some split matches".

The model follows the code as written, including these points:

- `cambiarPin` restores the attempts but never sets the status back to
  `ACTIVA`. A deactivated account therefore stays deactivated
  (`Accounts.InactiveIsFrozen`); no operation reactivates it.
- `depositar` tests the status before the amount.
- The constructor's comment asks for one upper-case letter in the PIN, but
  `validarPin` accepts exactly six ASCII digits.
- `transferir` debits the origin before it tries the deposit, with no
  pre-check and no rollback (`Controller.TransferNoRollback`).
- The controller calls `getDueno().getId()`, which `Cliente` does not have;
  it is read as `getIdentificacion()`. `Transaccion.TipoTransaccion`,
  `isCobraComision` and `getComision` in `obtenerEstadoCuenta` are read as the
  top-level enum, `isCobroComision` and `getMontoComision`.
- The commission is modelled as `(amount + 25) / 50`, which is what
  `Math.round(amount * 0.02)` computes for non-negative amounts below about
  10^16.
- When the commission is due and the amount is 1 to 24, the commission rounds
  to 0 while the commission flag is set. The record constructor then refuses
  the record after the balance has already been debited. The model keeps that
  behaviour (`Accounts.WithdrawAnomaly`, `Accounts.WithdrawKeepsBalanced`).

## Model

| member | source | states |
|---|---|---|
| Transactions.NewTransaction | src/modelo/Transaccion.java:25-40 | `Err(NonPositiveRecordAmount)` when amount ≤ 0, `Err(InvalidCommission)` when the flag is set with commission ≤ 0, `Ok` exactly otherwise; an accepted record is well formed, keeps kind, amount and flag, stores commission 0 when the flag is off, and has a positive commission iff the flag is set |
| Validation.ValidEmailIsPattern | src/modelo/Validacion.java:7 | deciding at the first `@` and the last dot accepts exactly the strings that match `^[\w.-]+@[\w.-]+\.[a-zA-Z]{2,}$` (some split exists), both directions |
| Validation.MatchIsValidEmail | src/modelo/Validacion.java:7 | every split of a string that matches the e-mail pattern is accepted by `ValidEmail` |
| Validation.ValidPin | src/modelo/Validacion.java:9-21 | `validarPin`: defined as exactly six ASCII digits (`^[0-9]{6}$`); its contract adds a derived fact the source does not state: such a string is neither a valid phone number nor a valid e-mail address |
| Validation.ValidPhone | src/modelo/Validacion.java:8-17 | `validarTelefono`: defined as exactly eight ASCII digits (`^[0-9]{8}$`); its contract adds a derived fact the source does not state: such a string is never a valid e-mail address |
| Validation.ValidEmail | src/modelo/Validacion.java:7-33 | `validarCorreo` and `validarEmail`, one predicate for the one pattern; an accepted address splits at its first `@` and the last dot after it into a non-empty local part of `[\w.-]` characters, the `@`, a non-empty `[\w.-]` part, the dot and at least two ASCII letters |
| Validation.ValidEmailHasOneAt | src/modelo/Validacion.java:7 | an accepted address holds exactly one `@` |
| Validation.DomainHasNoAt | src/modelo/Validacion.java:7 | the part of a match after the `@` holds no `@` |
| Validation.PinToken | src/modelo/Validacion.java:24-28 | the token built from two numbers in 10..99 is four ASCII digits, so `validarPin` always rejects it |
| Decimal.NatToString | src/modelo/Cuenta.java:45 | the decimal text is non-empty, all digits, and its digits read left to right denote `n`; it is one character exactly below 10 and has no leading zero |
| Decimal.NatToStringInjective | src/modelo/Cuenta.java:45 | different numbers have different decimal texts |
| Cipher.Encrypt | src/modelo/Cifrado.java:28 | decrypting what was encrypted gives the plain text back |
| Clients.TrimStart | src/modelo/Cliente.java:32-33 | skips exactly the leading characters ≤ `' '` that `String.trim` removes |
| Clients.TrimEnd | src/modelo/Cliente.java:32-33 | stops exactly at the trailing characters ≤ `' '` that `String.trim` removes |
| Clients.Trim | src/modelo/Cliente.java:32-33 | the result is the slice of the input between a leading and a trailing run of characters ≤ `' '`, and it starts and ends with a character above `' '`; an empty result means every character was ≤ `' '` |
| Clients.IsBlank | src/modelo/Cliente.java:19-22 | `String.isBlank`: defined as every character being Java white space (`IsJavaWhitespace`); its contract states that the empty string is blank, a blank string holds no character of the phone or e-mail patterns, and a blank ASCII string trims to nothing |
| Clients.CheckClient | src/modelo/Cliente.java:18-35 | the errors in source order (blank name, blank identification, malformed phone, malformed e-mail); `Ok` iff all four checks pass; the accepted profile holds the trimmed name and identification and the phone and e-mail verbatim |
| Clients.ControlCharacterNameStoredEmpty | src/modelo/Cliente.java:19-32 | a one-character name at or below U+0020 that Java does not count as white space (exactly U+0000–U+0008 and U+000E–U+001B) is not blank for `isBlank`, so the client is accepted and `trim` stores the empty name |
| Clients.ControlCharacterNameExample | src/modelo/Cliente.java:19-35 | the name U+0001 with a valid identification, phone and e-mail is accepted and stored as the empty name |
| Clients.Client.constructor | src/modelo/Cliente.java:32-35 | the new client holds the given profile |
| Clients.Client.Create | src/modelo/Cliente.java:18-37 | the constructor with checks: fails exactly when `CheckClient` does, with its error; otherwise a fresh client holding the checked profile |
| Clients.Client.SetFullName | src/modelo/Cliente.java:43-45 | the name is replaced without any check; the other fields are unchanged |
| Clients.Client.SetIdentification | src/modelo/Cliente.java:51-53 | the identification is replaced without any check; the other fields are unchanged |
| Clients.Client.SetPhone | src/modelo/Cliente.java:59-64 | `Ok` iff the phone is eight digits; on `Ok` only the phone changes, to the argument; on `Err(PhoneFormatInvalid)` nothing changes |
| Clients.Client.SetEmail | src/modelo/Cliente.java:70-75 | `Ok` iff the address is accepted; on `Ok` only the e-mail changes, to the argument; on `Err(EmailFormatInvalid)` nothing changes |
| Accounts.TwoPercent | src/modelo/Cuenta.java:107 | the result is 2 % of the amount rounded to the nearest integer: `50c - 25 ≤ amount < 50c + 25` |
| Accounts.Commission | src/modelo/Cuenta.java:106-107 | 0 below five records; from five records on, 2 % of the amount rounded half up |
| Accounts.AccountNumberDenotes | src/modelo/Cuenta.java:45 | `AccountNumber(n)`, the text `"CTA" + n`, is `"CTA"` followed by decimal digits that denote `n` |
| Accounts.AccountNumberInjective | src/modelo/Cuenta.java:45 | `"CTA" + n` differs for different counter values |
| Accounts.DepositStep | src/modelo/Cuenta.java:78-87 | inactive account: `Err(AccountInactive)`, nothing changes; amount ≤ 0: `Err(NonPositiveAmount)`, nothing changes; otherwise the balance grows by the amount and exactly one uncharged deposit record is appended |
| Accounts.WithdrawStep | src/modelo/Cuenta.java:98-119 | the refusals in source order, each with nothing changed, including `InsufficientFunds(balance, amount + commission)`; an accepted withdrawal appends one withdrawal record carrying the principal, flag and commission, and debits amount plus commission; any other refusal is the commission one, after the debit and with the log unchanged; an active account, a positive amount that the balance covers with its commission, and no anomalous commission give `Ok` |
| Accounts.VerifyPinStep | src/modelo/Cuenta.java:180-193 | inactive: false, nothing changes; active: accepted iff the decrypted PIN equals the input; a correct PIN restores three attempts; a wrong one takes one attempt and deactivates the account exactly when at most one was left |
| Accounts.ChangePinStep | src/modelo/Cuenta.java:127-133 | `Ok` iff the new PIN is six digits; on `Err(PinFormatInvalid)` nothing changes; on `Ok` the stored PIN decrypts to the new one, attempts are 3, and the status is untouched |
| Accounts.ConsultBalanceStep | src/modelo/Cuenta.java:142-147 | the balance iff the PIN check accepts, else `Err(PinRejected)`; the PIN check's effects remain either way |
| Accounts.ConsultTransactionsStep | src/modelo/Cuenta.java:156-161 | the whole log iff the PIN check accepts, else `Err(PinRejected)`; the PIN check's effects remain either way |
| Accounts.OpenStep | src/modelo/Cuenta.java:36-53 | malformed PIN, then non-positive deposit, are refused; otherwise active, three attempts, balance equal to the deposit, the PIN stored encrypted, a log of exactly one uncharged deposit, and the invariant holds |
| Accounts.StepsPreserveInv | src/modelo/Cuenta.java:78-193 | deposit, withdrawal (the anomalous one included), PIN check and PIN change keep the invariant: balance ≥ 0, attempts in 0..3 and positive while active, every record well formed |
| Accounts.WithdrawCommissionRule | src/modelo/Cuenta.java:106-108 | an accepted withdrawal is charged iff the log already held five records; then its commission is `(amount + 25) / 50` and at least 1, else 0; the balance drops by amount plus commission |
| Accounts.WithdrawAnomaly | src/modelo/Cuenta.java:106-117 | the commission refusal happens exactly when the account is active, holds five records, the amount is 1..24 and the balance covers it; then the balance has dropped by the amount and the log is unchanged |
| Accounts.WrongPinsLock | src/modelo/Cuenta.java:180-193 | a run of wrong PINs deactivates the account iff it was inactive or the run is at least as long as the attempts left; while active the attempts drop by the run length; nothing but status and attempts changes |
| Accounts.ThreeWrongPinsLockNewAccount | src/modelo/Cuenta.java:180-193 | three wrong PINs deactivate a new account, and a fourth check with the right PIN is refused and changes nothing |
| Accounts.RightPinAfterTwoWrongResets | src/modelo/Cuenta.java:185-190 | after two wrong PINs a new account is active with one attempt, and the right PIN then restores three |
| Accounts.ApplyPreservesInv | src/modelo/Cuenta.java:78-193 | each single operation keeps the invariant |
| Accounts.RunPreservesInv | src/modelo/Cuenta.java:110-115 | after any sequence of operations the invariant holds, in particular the balance is not negative |
| Accounts.RunLogGrows | src/modelo/Cuenta.java:25 | after any sequence of operations the old log is a prefix of the new one |
| Accounts.InactiveIsFrozen | src/modelo/Cuenta.java:127-133 | no sequence of operations reactivates an inactive account, nor changes its balance or its log |
| Accounts.TotalAppend | src/modelo/Cuenta.java:199-206 | appending a record adds its contribution to a column's total |
| Accounts.Tally | src/modelo/Cuenta.java:195-207 | the loop's four sums are the deposit and other amounts and the flagged deposit and other commissions; the commission total is their sum |
| Accounts.DepositCommissionsZero | src/modelo/Cuenta.java:86 | on an account's log the deposit-commission total is 0 |
| Accounts.OpenBalanced | src/modelo/Cuenta.java:36-53 | a new account's balance equals deposits minus withdrawals minus commissions of its log |
| Accounts.DepositKeepsBalanced | src/modelo/Cuenta.java:78-87 | a deposit keeps the balance equal to what the log accounts for |
| Accounts.WithdrawKeepsBalanced | src/modelo/Cuenta.java:106-118 | every withdrawal but the anomalous one keeps balance and log in agreement; the anomalous one breaks it |
| Accounts.CommissionExample | src/modelo/Cuenta.java:106-118 | opening with 10000 and four deposits of 100 gives five records and 10400; withdrawing 1000 then records commission 20 and leaves 9380 |
| Accounts.Numbering.constructor | src/modelo/Cuenta.java:16 | the counter starts at 0 |
| Accounts.Numbering.Next | src/modelo/Cuenta.java:45 | `incrementAndGet`: the counter grows by one and the new value is returned |
| Accounts.Account.constructor | src/modelo/Cuenta.java:44-52 | the fields become those of `OpenStep`, the number is `"CTA"` + the serial |
| Accounts.Account.Open | src/modelo/Cuenta.java:36-53 | refusals as `OpenStep`, with the counter untouched; otherwise a fresh valid account in the `OpenStep` state, numbered by the counter's next value |
| Accounts.Account.Deposit | src/modelo/Cuenta.java:78-87 | the fields move as `DepositStep` says |
| Accounts.Account.Withdraw | src/modelo/Cuenta.java:98-119 | the fields move as `WithdrawStep` says |
| Accounts.Account.ChangePin | src/modelo/Cuenta.java:127-133 | the fields move as `ChangePinStep` says |
| Accounts.Account.VerifyPin | src/modelo/Cuenta.java:180-193 | the fields move as `VerifyPinStep` says |
| Accounts.Account.ConsultBalance | src/modelo/Cuenta.java:142-147 | the fields move as `ConsultBalanceStep` says |
| Accounts.Account.ConsultTransactions | src/modelo/Cuenta.java:156-161 | the fields move as `ConsultTransactionsStep` says |
| Accounts.Account.Statement | src/modelo/Cuenta.java:195-215 | the totals of the whole log, with no PIN check |
| Controller.FindAccount | src/controlador/ControladorCajero.java:52-58 | the position of the first account with the number; `Err(AccountNotFound(number))` iff none has it |
| Controller.FindClient | src/controlador/ControladorCajero.java:43-49 | the position of the first client with the identification; `Err(ClientNotFound)` iff none has it |
| Controller.DuplicateClientShadowed | src/controlador/ControladorCajero.java:111-119 | appending a client whose identification is already present does not change what the lookup finds |
| Controller.WithdrawWithSmsStep | src/controlador/ControladorCajero.java:166-176 | wrong PIN: refused with the attempt used up; wrong code: refused with only the attempts reset; both right: exactly the withdrawal; money moves only with the right PIN and code on an active account |
| Controller.TransferSpec | src/controlador/ControladorCajero.java:236-250 | owners that differ: refused before the PIN check, nothing changes; success needs the same owner, the right PIN and code, an active origin and a positive amount; then, between two accounts, the origin has its attempts restored, loses amount plus commission and logs the withdrawal, the destination gains the amount and logs the deposit, and nothing else changes in either; once the withdrawal succeeds, the origin keeps it whatever the deposit does, and the result and destination are the deposit's; a refused PIN, code or withdrawal returns that refusal with the origin as the checked withdrawal left it and the destination untouched; the same owner, the right PIN and code, an active origin and destination, and a covered, non-anomalous positive amount give `Ok` |
| Controller.TransferNoRollback | src/controlador/ControladorCajero.java:248-249 | with an inactive destination the transfer is refused with `AccountInactive`; the origin keeps the whole withdrawal (attempts restored, debited by amount plus commission, the withdrawal record logged) and the destination is untouched |
| Controller.SelfTransferCostsCommission | src/controlador/ControladorCajero.java:241-249 | a successful transfer to the same account restores its attempts, costs exactly the commission, logs a withdrawal then a deposit, and changes nothing else |
| Controller.RemoveKeepsValid | src/controlador/ControladorCajero.java:259 | removing one account keeps the list valid and the others' states in order, and no account left has its number |
| Controller.Atm.NumbersDistinct | src/modelo/Cuenta.java:45 | no two accounts in the list share a number |
| Controller.Atm.constructor | src/controlador/ControladorCajero.java:28-31 | no clients, no accounts, and the list invariant holds |
| Controller.Atm.CreateClient | src/controlador/ControladorCajero.java:111-119 | fails exactly as the client checks do; otherwise the new client is appended, duplicates included |
| Controller.Atm.CreateAccount | src/controlador/ControladorCajero.java:122-132 | unknown client, then malformed PIN, then non-positive deposit, each with the list unchanged; otherwise exactly one new account, for that client and in the `OpenStep` state, is appended and the others are untouched; the counter is untouched by every refusal, and an accepted account moves it by exactly one and is numbered `"CTA"` + its new value |
| Controller.Atm.ChangePin | src/controlador/ControladorCajero.java:137-143 | ignores the current PIN: the found account moves as `ChangePinStep`, the others are untouched |
| Controller.Atm.DepositColones | src/controlador/ControladorCajero.java:146-150 | no PIN: the found account moves as `DepositStep`, the others are untouched |
| Controller.Atm.WithdrawWithSms | src/controlador/ControladorCajero.java:162-177 | the found account moves as `WithdrawWithSmsStep` with the code compared to the one sent, the others are untouched |
| Controller.Atm.ConsultBalance | src/controlador/ControladorCajero.java:189-192 | the found account moves as `ConsultBalanceStep` |
| Controller.Atm.ConsultTransactions | src/controlador/ControladorCajero.java:201-204 | the found account moves as `ConsultTransactionsStep` |
| Controller.Atm.ConsultStatus | src/controlador/ControladorCajero.java:270-274 | the status after the PIN check, returned whatever the check decided |
| Controller.Atm.AccountSummary | src/controlador/ControladorCajero.java:82-98 | `Err(PinRejected)` iff the PIN check refuses; otherwise the totals of the account's log; the PIN check's effects remain |
| Controller.Atm.Transfer | src/controlador/ControladorCajero.java:231-251 | origin, then destination, must be found, with nothing changed otherwise; then the result and the two accounts' new states are those of `TransferSpec`, also when both numbers name one account |
| Controller.Atm.DeleteAccount | src/controlador/ControladorCajero.java:254-262 | a refused PIN keeps the list, with the attempt used up; an accepted one removes that account, keeps the others in order, and its number no longer resolves |
| Controller.Atm.ChangePhone | src/controlador/ControladorCajero.java:217-221 | the found client's phone changes iff it is valid; no other client changes |
| Controller.Atm.ChangeEmail | src/controlador/ControladorCajero.java:224-228 | the found client's e-mail changes iff it is valid; no other client changes |

## Left out

- Persistence (`src/persistencia/*`, `LocalDateTimeAdapter`): every save call is a no-op. The controller's constructor starts with empty lists instead of loading them, so its load loop is not modelled. Removing an account's transaction file is left out too.
- The counter `SECUENCIA` restarts at 0 on every program start, so numbers issued by an earlier run may repeat after a reload. Only accounts created through one `Numbering` are proved distinct.
- The user interface (`VistaGUI`) and `Main`.
- `Cifrado`: AES/CBC, Base64, the random IV and `CryptoError` are not modelled. The cipher is an abstract pair whose only law is that decryption undoes encryption.
- `ServicioSMS`: the random code and the console output. The code sent is the parameter `sent`.
- `ServicioBCCR` and the USD operations `depositarDolares`, `retirarDolares`, `consultarSaldoDolares`, `getTipoCambioCompra` and `getTipoCambioVenta`: they convert doubles through an external rate stub.
- Timestamps (`LocalDateTime.now()` in accounts, records and clients) and the randomness of `generarPinToken`. Only the token's shape is kept.
- Accounts.Commission: `Math.round(amount * 0.02)` is double arithmetic. The model is exact integer rounding. The two agree only while the rounding error of the double product cannot carry it across a half, which holds for amounts below about 10^16.
- Accounts.WithdrawStep, Accounts.DepositStep: `long` overflow of the balance and of `amount + commission` is not modelled (integers are unbounded).
- Accounts.Numbering.Next: the `int` wrap-around of `AtomicInteger` and its thread safety are not modelled.
- Accounts.Tally: the `long` sums cannot overflow in the model.
- Null strings: Dafny strings are values, so the null checks of `Cliente` have no counterpart.
- `getTransacciones` and the getters of `Transaccion`: the log is a value sequence and a record is an immutable datatype, so the copy and the getters are the fields themselves.
- Text output: the text of `obtenerEstado`, of `obtenerEstadoCuenta` (status and encrypted PIN lines) and of the `toString` methods. Only the numeric totals are kept.
- The controller's unused fields `pinCifrado`, `bloqueada` and `intentosFallidos`, with `cifrarPin` and `getEstatus`: they are never read by the operations.
- The JAXB no-argument constructor of `Cliente` and `fechaRegistro`: they exist only for persistence.
