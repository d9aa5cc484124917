/**
 * `process_payment` as a function of the database and of what the Stripe
 * call reports.
 */
module PaymentViews {
  import opened Tables
  import opened Models
  import opened Orders
  import opened Payments
  import opened Integrity
  import opened OrderViews

  /**
   * `process_payment`: the order must be the requester's (404) and pending
   * (400); the request must name a platform (400) among the choices (400).
   * The order's total is charged; a payment and a transaction record the
   * reported status, and a completed charge completes the order.
   */
  function Pay(db: Database, user: nat, orderId: nat, platform: Option<string>, stripe: StripeOutcome): (o: Outcome<PaymentStatus>)
    requires TablesValid(db)
    ensures TablesValid(o.db)
    ensures o.db == db.(orders := o.db.orders, payments := o.db.payments, transactions := o.db.transactions)
  {
    if !OwnedBy(db.orders, orderId, user) then Outcome(Refuse(NotFound), db)
    else if db.orders.rows[orderId].status != Pending then Outcome(Refuse(NotEligibleForPayment), db)
    else if !Truthy(platform) then Outcome(Refuse(PaymentMethodRequired), db)
    else if !IsPlatform(platform.value) then Outcome(Refuse(InvalidPaymentMethod), db)
    else RecordCharge(db, orderId, stripe)
  }

  /**
   * What follows the Stripe call: a payment and a transaction with the
   * reported status, and the order completed when the charge went through.
   */
  function RecordCharge(db: Database, orderId: nat, stripe: StripeOutcome): (o: Outcome<PaymentStatus>)
    requires TablesValid(db) && orderId in db.orders.rows
    ensures TablesValid(o.db)
    ensures o.db == db.(orders := o.db.orders, payments := o.db.payments, transactions := o.db.transactions)
  {
    var order := db.orders.rows[orderId];
    var status := ChargeStatus(stripe);
    var orders := if status == PaymentCompleted then Put(db.orders, orderId, order.(status := Completed)) else db.orders;
    Outcome(Ok(201, status),
            db.(orders := orders,
                payments := Insert(db.payments, Payment(orderId, order.totalPrice, status)),
                transactions := Insert(db.transactions, Transaction(db.payments.next, status))))
  }

  /** Whether the view reaches the Stripe call: exactly when it answers 201. */
  predicate Charges(db: Database, user: nat, orderId: nat, platform: Option<string>)
  {
    && OwnedBy(db.orders, orderId, user)
    && db.orders.rows[orderId].status == Pending
    && Truthy(platform)
    && platform.value == "stripe"
  }

  /** The refusals, in the order the view checks them; a refused request writes nothing. */
  lemma PayRefusals(db: Database, user: nat, orderId: nat, platform: Option<string>, stripe: StripeOutcome)
    requires TablesValid(db)
    ensures var o := Pay(db, user, orderId, platform, stripe);
      && (!OwnedBy(db.orders, orderId, user) ==> o.reply == Refuse(NotFound))
      && (OwnedBy(db.orders, orderId, user) && db.orders.rows[orderId].status != Pending ==>
            o.reply == Refuse(NotEligibleForPayment))
      && (OwnedBy(db.orders, orderId, user) && db.orders.rows[orderId].status == Pending && !Truthy(platform) ==>
            o.reply == Refuse(PaymentMethodRequired))
      && ((OwnedBy(db.orders, orderId, user) && db.orders.rows[orderId].status == Pending
            && Truthy(platform) && platform.value != "stripe") ==> o.reply == Refuse(InvalidPaymentMethod))
      && (o.reply.Ok? <==> Charges(db, user, orderId, platform))
      && (o.reply.Fail? ==> o.db == db)
  {
    OnlyStripe(["stripe"]);
  }

  /**
   * A processed payment records the order's total and the reported status
   * in a new payment and a new transaction for it; the order becomes
   * completed exactly when the charge went through, and no other order
   * changes.
   */
  lemma PayRecords(db: Database, user: nat, orderId: nat, platform: Option<string>, stripe: StripeOutcome)
    requires TablesValid(db)
    ensures var o := Pay(db, user, orderId, platform, stripe);
      o.reply.Ok? ==>
        var order := db.orders.rows[orderId];
        && o.reply.code == 201 && o.reply.value != PaymentPending
        && Get(o.db.payments, db.payments.next) == Some(Payment(orderId, order.totalPrice, o.reply.value))
        && Keys(o.db.payments) == Keys(db.payments) + {db.payments.next}
        && (forall k | k != db.payments.next :: Get(o.db.payments, k) == Get(db.payments, k))
        && Get(o.db.transactions, db.transactions.next) == Some(Transaction(db.payments.next, o.reply.value))
        && Keys(o.db.transactions) == Keys(db.transactions) + {db.transactions.next}
        && (forall k | k != db.transactions.next :: Get(o.db.transactions, k) == Get(db.transactions, k))
        && (stripe == IntentCreated ==> Get(o.db.orders, orderId) == Some(order.(status := Completed)))
        && (stripe == StripeError ==> o.db.orders == db.orders)
        && (forall k | k != orderId :: Get(o.db.orders, k) == Get(db.orders, k))
        && o.db.(payments := db.payments, transactions := db.transactions, orders := db.orders) == db
  {
  }

  /**
   * Once a payment has completed an order, the next payment request for it,
   * by anyone and with no status change in between, is refused and writes
   * nothing: the owner is told the order is no longer pending, anyone else
   * that it does not exist. Only a staff status change can reopen it
   * (`ReopenAfterPay`).
   */
  lemma PayOnce(db: Database, user: nat, orderId: nat, platform: Option<string>,
                user': nat, platform': Option<string>, stripe': StripeOutcome)
    requires TablesValid(db)
    ensures var o := Pay(db, user, orderId, platform, IntentCreated);
      o.reply.Ok? ==>
        var o' := Pay(o.db, user', orderId, platform', stripe');
        && o'.reply.Fail? && o'.db == o.db
        && (user' == user ==> o'.reply == Refuse(NotEligibleForPayment))
        && (user' != user ==> o'.reply == Refuse(NotFound))
  {
    var o := Pay(db, user, orderId, platform, IntentCreated);
    if o.reply.Ok? {
      assert Get(o.db.orders, orderId) == Some(db.orders.rows[orderId].(status := Completed));
    }
  }

  /**
   * A completed order is not closed for good: a staff member who sets its
   * status back to `pending` makes it chargeable again.
   */
  lemma ReopenAfterPay(db: Database, user: nat, orderId: nat, platform: Option<string>, staff: nat)
    requires TablesValid(db) && staff in Keys(db.users) && db.users.rows[staff].isStaff
    ensures var o := Pay(db, user, orderId, platform, IntentCreated);
      o.reply.Ok? ==>
        var o2 := SetOrderStatus(o.db, staff, orderId, Some("pending"));
        o2.reply.Ok? && Charges(o2.db, user, orderId, platform)
  {
  }

  /**
   * A failed charge leaves the order pending, so the same request may be
   * retried: it reaches the Stripe call again.
   */
  lemma PayRetry(db: Database, user: nat, orderId: nat, platform: Option<string>)
    requires TablesValid(db)
    ensures var o := Pay(db, user, orderId, platform, StripeError);
      o.reply.Ok? ==> o.reply.value == PaymentFailed && Charges(o.db, user, orderId, platform)
  {
    var o := Pay(db, user, orderId, platform, StripeError);
    if o.reply.Ok? {
      PayRefusals(db, user, orderId, platform, StripeError);
      assert o.db.orders == db.orders;
    }
  }

  /** Recording a charge keeps a consistent database consistent. */
  lemma RecordChargeConsistent(db: Database, orderId: nat, stripe: StripeOutcome)
    requires TablesValid(db) && orderId in db.orders.rows
    ensures Consistent(db) ==> Consistent(RecordCharge(db, orderId, stripe).db)
  {
    var o := RecordCharge(db, orderId, stripe);
    var order := db.orders.rows[orderId];
    var status := ChargeStatus(stripe);
    var payment := Payment(orderId, order.totalPrice, status);
    InsertPaymentConsistent(db, payment);
    var db1 := db.(payments := Insert(db.payments, payment));
    InsertTransactionConsistent(db1, Transaction(db.payments.next, status));
    var db2 := db1.(transactions := Insert(db.transactions, Transaction(db.payments.next, status)));
    if status == PaymentCompleted {
      PutOrderConsistent(db2, orderId, order.(status := Completed));
      assert o.db == db2.(orders := Put(db.orders, orderId, order.(status := Completed)));
    } else {
      assert o.db == db2;
    }
  }

  /** Processing a payment keeps a consistent database consistent. */
  lemma PayConsistent(db: Database, user: nat, orderId: nat, platform: Option<string>, stripe: StripeOutcome)
    requires TablesValid(db)
    ensures Consistent(db) ==> Consistent(Pay(db, user, orderId, platform, stripe).db)
  {
    var o := Pay(db, user, orderId, platform, stripe);
    if o.reply.Ok? {
      RecordChargeConsistent(db, orderId, stripe);
      assert o == RecordCharge(db, orderId, stripe);
    } else {
      assert o.db == db;
    }
  }
}
