/**
 * The payment service's controller over its payments table: a payment is
 * created once per order, at the order's total price; its status is then
 * moved through the five statuses and pushed to the order service.
 */
module PaymentController {
  import opened Http
  import opened Validation
  import opened PaymentModel

  datatype Answer =
    | ValidationErrors
    | OrderNotFound
    | AlreadyExists(payment: Payment)
    | PaymentJson(payment: Payment)
    | PaymentNotFound
    | Failed

  datatype Reply = Reply(status: int, body: Answer)

  /** No two payments of the table are for the same order. */
  ghost predicate OnePerOrder(payments: map<int, Payment>)
  {
    forall i, j :: i in payments && j in payments && payments[i].orderId == payments[j].orderId ==> i == j
  }

  /** The unique index on transaction_id. */
  ghost predicate DistinctTransactionIds(payments: map<int, Payment>)
  {
    forall i, j :: i in payments && j in payments && payments[i].transactionId == payments[j].transactionId ==> i == j
  }

  /** Whether some payment of the table is for the order. */
  predicate HasPayment(payments: map<int, Payment>, orderId: int)
  {
    exists id :: id in payments && payments[id].orderId == orderId
  }

  /** Whether some payment of the table carries the transaction id. */
  predicate UsesTransactionId(payments: map<int, Payment>, transactionId: string)
  {
    exists id :: id in payments && payments[id].transactionId == transactionId
  }

  /**
   * Inserting a payment for an order that has none, under a transaction id
   * no payment carries, keeps one payment per order and distinct ids.
   */
  lemma InsertKeepsUniqueness(payments: map<int, Payment>, p: Payment)
    requires OnePerOrder(payments) && DistinctTransactionIds(payments)
    requires p.id !in payments
    requires !HasPayment(payments, p.orderId) && !UsesTransactionId(payments, p.transactionId)
    ensures OnePerOrder(payments[p.id := p]) && DistinctTransactionIds(payments[p.id := p])
  {
  }

  /** Changing a payment's status keeps one payment per order and distinct ids. */
  lemma StatusChangeKeepsUniqueness(payments: map<int, Payment>, id: int, status: string)
    requires OnePerOrder(payments) && DistinctTransactionIds(payments) && id in payments
    ensures OnePerOrder(payments[id := payments[id].(status := status)])
    ensures DistinctTransactionIds(payments[id := payments[id].(status := status)])
  {
  }

  class PaymentService {
    var payments: map<int, Payment>
    var nextId: int

    ghost predicate Valid()
      reads this
    {
      (forall id :: id in payments ==> id < nextId && payments[id].id == id)
      && OnePerOrder(payments) && DistinctTransactionIds(payments)
    }

    constructor ()
      ensures Valid() && payments == map[] && nextId == 1
    {
      payments, nextId := map[], 1;
    }

    /**
     * `store`: validate the order id, fetch the order from the order service
     * (its total price, or what the client threw), refuse a second payment
     * for the order, and insert a pending payment at the order's total;
     * the insert fires the creating hook, and a transaction id already in
     * the table breaks the unique index, which ends in 500.
     */
    method Store(orderId: Value, lookup: Outcome<int>, now: int, uniq: string) returns (r: Reply)
      requires Valid()
      // the client returns only responses below 400 (ClientCall); the rest it throws
      requires lookup.Returned? ==> lookup.status < 400
      modifies this
      ensures Valid()
      ensures r.status in {201, 404, 422, 500}
      ensures !RequiredInteger(orderId) ==> r == Reply(422, ValidationErrors)
      ensures RequiredInteger(orderId) && lookup.Threw? ==>
                r == (if IsClientError(lookup, 404) then Reply(404, OrderNotFound) else Reply(500, Failed))
      ensures RequiredInteger(orderId) && lookup.Returned? && HasPayment(old(payments), orderId.i) ==>
                r.status == 422 && r.body.AlreadyExists?
                && r.body.payment in old(payments).Values && r.body.payment.orderId == orderId.i
      ensures r.status == 201 <==>
                RequiredInteger(orderId) && lookup.Returned? && !HasPayment(old(payments), orderId.i)
                && !UsesTransactionId(old(payments), TransactionId(now, uniq))
      ensures r.status == 201 ==>
                var p := Payment(old(nextId), orderId.i, lookup.body, StatusPending, TransactionId(now, uniq));
                payments == old(payments)[p.id := p] && nextId == old(nextId) + 1 && r.body == PaymentJson(p)
      ensures r.status != 201 ==> payments == old(payments) && nextId == old(nextId)
    {
      if !RequiredInteger(orderId) {
        return Reply(422, ValidationErrors);
      }
      if lookup.Threw? {
        if IsClientError(lookup, 404) {
          return Reply(404, OrderNotFound);
        }
        return Reply(500, Failed);
      }
      if HasPayment(payments, orderId.i) {
        var id :| id in payments && payments[id].orderId == orderId.i;
        return Reply(422, AlreadyExists(payments[id]));
      }
      var payment := Creating(Payment(nextId, orderId.i, lookup.body, StatusPending, ""), now, uniq);
      if UsesTransactionId(payments, payment.transactionId) {
        return Reply(500, Failed);
      }
      InsertKeepsUniqueness(payments, payment);
      payments := payments[payment.id := payment];
      nextId := nextId + 1;
      r := Reply(201, PaymentJson(payment));
    }

    /**
     * `getPaymentByOrder`: the order's payment, or 404 when it has none.
     * There is at most one, so the first is the only one.
     */
    method GetPaymentByOrder(orderId: int) returns (r: Reply)
      requires Valid()
      ensures r.status == 200 || r == Reply(404, PaymentNotFound)
      ensures r.status == 404 <==> !HasPayment(payments, orderId)
      ensures r.status == 200 ==>
                r.body.PaymentJson? && r.body.payment in payments.Values && r.body.payment.orderId == orderId
                && forall id :: id in payments && payments[id].orderId == orderId ==> payments[id] == r.body.payment
    {
      if !HasPayment(payments, orderId) {
        return Reply(404, PaymentNotFound);
      }
      var id :| id in payments && payments[id].orderId == orderId;
      r := Reply(200, PaymentJson(payments[id]));
    }

    /**
     * `updateStatus`: an unknown payment is 404 (route binding); the status
     * must be one of getStatuses; it is written first, then PUT to the
     * order service, and when that call throws the new status stays and
     * the answer is 500.
     */
    method UpdateStatus(paymentId: int, status: Value, put: Outcome<int>) returns (r: Reply)
      requires Valid()
      requires put.Returned? ==> put.status < 400
      modifies this
      ensures Valid() && nextId == old(nextId)
      ensures r.status in {200, 404, 422, 500}
      ensures paymentId !in old(payments) ==> r == Reply(404, PaymentNotFound) && payments == old(payments)
      ensures paymentId in old(payments) && !(status.Str? && status.s in GetStatuses()) ==>
                r == Reply(422, ValidationErrors) && payments == old(payments)
      ensures paymentId in old(payments) && status.Str? && status.s in GetStatuses() ==>
                var p := old(payments)[paymentId].(status := status.s);
                payments == old(payments)[paymentId := p]
                && r == (if put.Returned? then Reply(200, PaymentJson(p)) else Reply(500, Failed))
    {
      if paymentId !in payments {
        return Reply(404, PaymentNotFound);
      }
      // the `in:` rule, read through StatusRuleAcceptsStatuses
      if !(status.Str? && status.s in GetStatuses()) {
        return Reply(422, ValidationErrors);
      }
      StatusChangeKeepsUniqueness(payments, paymentId, status.s);
      var payment := payments[paymentId].(status := status.s);
      payments := payments[paymentId := payment];
      if put.Threw? {
        return Reply(500, Failed);
      }
      r := Reply(200, PaymentJson(payment));
    }
  }
}
