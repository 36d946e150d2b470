/**
 * The simulated payment controller (payment_test_module/payment.test.controller.js):
 * `checkout` records a processing transaction and picks the simulated
 * result; `verify` settles a transaction as paid or failed from the status
 * in the query alone. Transaction ids are modelled as the decimal spelling
 * of a counter, so a new id is never in use.
 */
module TestPayment {
  import opened Wrappers
  import opened TransactionModel
  import Decimal

  datatype CheckoutReply =
    | AmountRequired                                      // 400
    | CheckoutStarted(status: string, transactionId: string, redirectUrl: string)

  datatype VerifyReply =
    | TidRequired                                         // 400
    | TransactionNotFound                                 // 404
    | Settled(ok: bool, transaction: Transaction)

  /**
   * The simulated gateway result: `fail` gives FAILED, `random` gives the
   * outcome of the draw (`Math.random() > 0.5` is `heads`), anything else OK.
   */
  function SimulatedStatus(simulateResult: string, heads: bool): (s: string)
    ensures s == "OK" || s == "FAILED"
    ensures simulateResult == "fail" ==> s == "FAILED"
    ensures simulateResult != "fail" && simulateResult != "random" ==> s == "OK"
    ensures simulateResult == "random" ==> (s == "OK" <==> heads)
  {
    if simulateResult == "fail" then "FAILED"
    else if simulateResult == "random" then (if heads then "OK" else "FAILED")
    else "OK"
  }

  function RedirectUrl(status: string, tid: string): string {
    "/verify.html?status=" + status + "&tid=" + tid
  }

  /** A falsy amount: absent or zero. */
  predicate Falsy(amount: Option<real>) {
    amount.None? || amount.value == 0.0
  }

  /** A settlement depends on the query status only: OK pays, anything else fails. */
  function Settle(t: Transaction, queryStatus: string): (r: Transaction)
    ensures r.amount == t.amount && r.userId == t.userId
    ensures r.status == Paid <==> queryStatus == "OK"
    ensures r.status == Paid || r.status == Failed
  {
    t.(status := if queryStatus == "OK" then Paid else Failed)
  }

  /** The settled status forgets what the transaction held before. */
  lemma SettleIgnoresPriorStatus(t: Transaction, u: Transaction, queryStatus: string)
    requires t.amount == u.amount && t.userId == u.userId
    ensures Settle(t, queryStatus) == Settle(u, queryStatus)
  {
  }

  class TestGateway {
    var transactions: map<string, Transaction>
    /** The counter the next transaction id is spelled from. */
    var nextId: nat

    /** Every stored id is the spelling of a counter value already used. */
    ghost predicate Valid()
      reads this
    {
      forall tid :: tid in transactions ==> Decimal.IsDigits(tid) && Decimal.ParseDecimal(tid) < nextId
    }

    constructor ()
      ensures Valid() && transactions == map[] && nextId == 0
    {
      transactions := map[];
      nextId := 0;
    }

    /**
     * `checkout`: a falsy amount is refused and nothing is stored; otherwise
     * a new processing transaction (user id null when none is given) is
     * stored under a fresh id, and the reply carries a redirect that embeds
     * the simulated status and that id.
     */
    method Checkout(amount: Option<real>, userId: string, simulateResult: string) returns (reply: CheckoutReply)
      requires Valid()
      modifies this
      ensures Valid()
      ensures Falsy(amount) ==> reply == AmountRequired && transactions == old(transactions)
      ensures !Falsy(amount) ==>
        && reply.CheckoutStarted?
        && reply.status == "processing"
        && reply.transactionId !in old(transactions)
        && transactions == old(transactions)[reply.transactionId :=
             Transaction(amount.value, if userId == "" then None else Some(userId), Processing)]
        && (exists heads: bool :: reply.redirectUrl == RedirectUrl(SimulatedStatus(simulateResult, heads), reply.transactionId))
        && (simulateResult != "random" ==> reply.redirectUrl == RedirectUrl(SimulatedStatus(simulateResult, true), reply.transactionId))
    {
      if Falsy(amount) {
        return AmountRequired;
      }
      var created := NewTransaction(amount, if userId == "" then None else Some(userId), Some("processing"));
      var transaction := created.value;
      var tid := Decimal.NatToDecimal(nextId);
      Decimal.ParseNatToDecimal(nextId);
      transactions := transactions[tid := transaction];
      nextId := nextId + 1;
      var heads: bool :| true;
      var status := SimulatedStatus(simulateResult, heads);
      reply := CheckoutStarted(StatusLabel(transaction.status), tid, RedirectUrl(status, tid));
    }

    /**
     * `verify`: an absent id is refused, an unknown one is not found, both
     * without change; otherwise the transaction is settled by the query
     * status, whatever it held before.
     */
    method Verify(tid: string, queryStatus: string) returns (reply: VerifyReply)
      requires Valid()
      modifies this
      ensures Valid() && nextId == old(nextId)
      ensures tid == "" ==> reply == TidRequired && transactions == old(transactions)
      ensures tid != "" && tid !in old(transactions) ==> reply == TransactionNotFound && transactions == old(transactions)
      ensures tid != "" && tid in old(transactions) ==>
        && transactions == old(transactions)[tid := Settle(old(transactions)[tid], queryStatus)]
        && reply == Settled(queryStatus == "OK", transactions[tid])
    {
      if tid == "" {
        return TidRequired;
      }
      if tid !in transactions {
        return TransactionNotFound;
      }
      var transaction := transactions[tid];
      if queryStatus == "OK" {
        transaction := transaction.(status := Paid);
        transactions := transactions[tid := transaction];
        reply := Settled(true, transaction);
      } else {
        transaction := transaction.(status := Failed);
        transactions := transactions[tid := transaction];
        reply := Settled(false, transaction);
      }
    }
  }
}
