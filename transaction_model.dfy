/**
 * The Transaction collection's schema (payment_test_module/payment.test.model.js):
 * a required amount, an optional user id and a status enum defaulting to
 * processing.
 */
module TransactionModel {
  import opened Wrappers
  import opened SchemaRules

  datatype TransactionStatus = Processing | Paid | Failed

  datatype Transaction = Transaction(amount: real, userId: Option<string>, status: TransactionStatus)

  function StatusLabel(s: TransactionStatus): string {
    match s
    case Processing => "processing"
    case Paid => "paid"
    case Failed => "failed"
  }

  /** Casting a string into the `status` enum. */
  function ParseStatus(spelling: string): (r: Option<TransactionStatus>)
    ensures r.Some? <==> spelling in ["processing", "paid", "failed"]
    ensures r.Some? ==> StatusLabel(r.value) == spelling
  {
    if spelling == "processing" then Some(Processing)
    else if spelling == "paid" then Some(Paid)
    else if spelling == "failed" then Some(Failed)
    else None
  }

  lemma StatusRoundTrip(s: TransactionStatus)
    ensures ParseStatus(StatusLabel(s)) == Some(s)
  {
  }

  /**
   * `new Transaction({...})` with validation: `amount` is required, `status`
   * must be one of the enum's spellings and defaults to processing.
   */
  function NewTransaction(amount: Option<real>, userId: Option<string>, status: Option<string>)
    : (r: Result<Transaction, SchemaError>)
    ensures r.Ok? <==> amount.Some? && (status.Some? ==> ParseStatus(status.value).Some?)
    ensures r.Ok? ==> r.value.amount == amount.value && r.value.userId == userId
    ensures r.Ok? && status.None? ==> r.value.status == Processing
    ensures r.Ok? && status.Some? ==> StatusLabel(r.value.status) == status.value
  {
    if amount.None? then Err(Required("amount"))
    else if status.None? then Ok(Transaction(amount.value, userId, Processing))
    else match ParseStatus(status.value)
      case None => Err(NotInEnum("status"))
      case Some(s) => Ok(Transaction(amount.value, userId, s))
  }
}
