/** Error and result values that stand in for the exceptions the system throws. */
module Outcomes {

  datatype Option<T> = None | Some(value: T)

  /** One variant per exception (class and message) the core raises. */
  datatype Error =
    // PinInvalidoException / IllegalArgumentException "Formato de PIN inválido"
    | PinFormatInvalid
    // PinInvalidoException "PIN incorrecto o cuenta bloqueada"
    | PinRejected
    // IllegalStateException "Cuenta inactiva"
    | AccountInactive
    // IllegalArgumentException raised by a deposit or a withdrawal of a non-positive amount
    | NonPositiveAmount
    // IllegalArgumentException "Depósito inicial debe ser mayor que cero"
    | NonPositiveOpeningDeposit
    // SaldoInsuficienteException, with the balance and the required debit it reports
    | InsufficientFunds(balance: int, required: int)
    // IllegalArgumentException raised by the transaction record's constructor
    | NonPositiveRecordAmount
    | InvalidCommission
    // IllegalArgumentException raised by the client's constructor and setters
    | BlankName
    | BlankIdentification
    | PhoneFormatInvalid
    | EmailFormatInvalid
    // IllegalArgumentException raised by the controller
    | ClientNotFound
    | AccountNotFound(number: string)
    | SmsCodeMismatch
    | DifferentOwners

  datatype Result<T> = Ok(value: T) | Err(error: Error)
}
