/** The transaction record (Transaccion) and its kind (TipoTransaccion). */
module Transactions {
  import opened Outcomes

  /** DEPOSITO, RETIRO, TRANSFERENCIA */
  datatype Kind = Deposit | Withdrawal | Transfer

  /**
   * An immutable record: kind, principal amount, whether a commission was
   * charged and its amount. The creation timestamp is not modelled.
   */
  datatype Transaction = Transaction(kind: Kind, amount: int, charged: bool, commission: int)

  /** What the constructor's checks guarantee of every record it lets through. */
  predicate WellFormed(t: Transaction) {
    && t.amount > 0
    && (t.charged ==> t.commission > 0)
    && (!t.charged ==> t.commission == 0)
  }

  /**
   * The constructor: rejects a non-positive amount, then a charged commission
   * that is not positive; an uncharged record stores commission 0 whatever
   * was passed.
   */
  function NewTransaction(kind: Kind, amount: int, charged: bool, commission: int): (r: Result<Transaction>)
    ensures amount <= 0 ==> r == Err(NonPositiveRecordAmount)
    ensures amount > 0 && charged && commission <= 0 ==> r == Err(InvalidCommission)
    ensures r.Ok? <==> amount > 0 && (charged ==> commission > 0)
    ensures r.Ok? ==> WellFormed(r.value)
    ensures r.Ok? ==> (r.value.commission > 0 <==> r.value.charged)
    ensures r.Ok? ==> && r.value.kind == kind && r.value.amount == amount && r.value.charged == charged
                      && r.value.commission == (if charged then commission else 0)
  {
    if amount <= 0 then Err(NonPositiveRecordAmount)
    else if charged && commission <= 0 then Err(InvalidCommission)
    else Ok(Transaction(kind, amount, charged, if charged then commission else 0))
  }
}
