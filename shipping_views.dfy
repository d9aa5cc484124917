/**
 * The shipping views as functions of the database and of what the carrier
 * (Shippo) answers: rates for an order, scheduling its delivery with a
 * chosen rate, and the staff views of a delivery's status.
 */
module ShippingViews {
  import opened Tables
  import opened Models
  import opened Orders
  import opened Shipping
  import opened Integrity

  /** The body of a successful label purchase. */
  datatype LabelReceipt = LabelReceipt(
    trackingNumber: string,
    labelUrl: string,
    trackingUrl: string,
    status: DeliveryStatus)

  /** Whether the rates view gets as far as asking the carrier: an own order and a complete address. */
  predicate AsksForRates(db: Database, user: nat, orderId: nat, address: AddressForm)
  {
    OwnedBy(db.orders, orderId, user) && AddressComplete(address)
  }

  /**
   * `get_shipping_rates`: an own order (404) and all six address values
   * (400); a "shippo" shipping method priced at the order's total is saved
   * before the carrier is asked, and stays when the carrier fails (500).
   * `shipment` is the carrier's shipment, or None when a carrier call raised.
   */
  function Rates(db: Database, user: nat, orderId: nat, address: AddressForm, shipment: Option<seq<ShipmentRate>>)
    : (o: Outcome<seq<RateOption>>)
    requires TablesValid(db)
    ensures TablesValid(o.db) && o.db == db.(shippingMethods := o.db.shippingMethods)
  {
    if !OwnedBy(db.orders, orderId, user) then Outcome(Refuse(NotFound), db)
    else if !AddressComplete(address) then Outcome(Refuse(AddressIncomplete), db)
    else
      var db' := db.(shippingMethods := Insert(db.shippingMethods, ShippingMethod("shippo", db.orders.rows[orderId].totalPrice)));
      if shipment.None? then Outcome(Refuse(CarrierError), db')
      else Outcome(Ok(200, RateList(shipment.value)), db')
  }

  /**
   * The rates view answers the carrier's rates exactly when it reaches the
   * carrier and the carrier answers; whenever it reaches the carrier it has
   * saved one new shipping method, and otherwise it writes nothing.
   */
  lemma RatesEffect(db: Database, user: nat, orderId: nat, address: AddressForm, shipment: Option<seq<ShipmentRate>>)
    requires TablesValid(db)
    ensures var o := Rates(db, user, orderId, address, shipment);
      && (!OwnedBy(db.orders, orderId, user) ==> o.reply == Refuse(NotFound))
      && (OwnedBy(db.orders, orderId, user) && !AddressComplete(address) ==> o.reply == Refuse(AddressIncomplete))
      && (AsksForRates(db, user, orderId, address) && shipment.None? ==> o.reply == Refuse(CarrierError))
      && (o.reply.Ok? <==> AsksForRates(db, user, orderId, address) && shipment.Some?)
      && (o.reply.Ok? ==> o.reply.code == 200 && o.reply.value == RateList(shipment.value))
      && (!AsksForRates(db, user, orderId, address) ==> o.db == db)
      && (AsksForRates(db, user, orderId, address) ==>
            && Keys(o.db.shippingMethods) == Keys(db.shippingMethods) + {db.shippingMethods.next}
            && Get(o.db.shippingMethods, db.shippingMethods.next)
                 == Some(ShippingMethod("shippo", db.orders.rows[orderId].totalPrice))
            && (forall k | k != db.shippingMethods.next :: Get(o.db.shippingMethods, k) == Get(db.shippingMethods, k))
            && o.db.(shippingMethods := db.shippingMethods) == db)
  {
  }

  /** Asking for rates keeps a consistent database consistent. */
  lemma RatesConsistent(db: Database, user: nat, orderId: nat, address: AddressForm, shipment: Option<seq<ShipmentRate>>)
    requires TablesValid(db)
    ensures Consistent(db) ==> Consistent(Rates(db, user, orderId, address, shipment).db)
  {
    var o := Rates(db, user, orderId, address, shipment);
    if AsksForRates(db, user, orderId, address) {
      var sm := ShippingMethod("shippo", db.orders.rows[orderId].totalPrice);
      InsertMethodConsistent(db, sm);
      assert o.db == db.(shippingMethods := Insert(db.shippingMethods, sm));
    } else {
      assert o.db == db;
    }
  }

  /** Whether the schedule view gets as far as buying a label: an own order and a rate named. */
  predicate BuysLabel(db: Database, user: nat, orderId: nat, rateId: Option<string>)
  {
    OwnedBy(db.orders, orderId, user) && Truthy(rateId)
  }

  /**
   * `schedule_delivery`: an own order (404) and a rate named (400); the
   * label purchase must not raise (500) and must succeed (400).  Then a
   * "shippo" shipping method priced at the order's total and a pending
   * delivery using it, with the label's tracking number and URL.
   * `purchase` is the carrier's transaction, or None when the purchase raised.
   */
  function Schedule(db: Database, user: nat, orderId: nat, rateId: Option<string>, purchase: Option<LabelTransaction>)
    : (o: Outcome<LabelReceipt>)
    requires TablesValid(db)
    ensures TablesValid(o.db) && o.db == db.(shippingMethods := o.db.shippingMethods, deliveries := o.db.deliveries)
  {
    if !OwnedBy(db.orders, orderId, user) then Outcome(Refuse(NotFound), db)
    else if !Truthy(rateId) then Outcome(Refuse(NoRateSelected), db)
    else if purchase.None? then Outcome(Refuse(CarrierError), db)
    else if !purchase.value.succeeded then Outcome(Refuse(LabelPurchaseFailed), db)
    else
      var t := purchase.value;
      var sm := ShippingMethod("shippo", db.orders.rows[orderId].totalPrice);
      var delivery := Delivery(orderId, db.shippingMethods.next, t.trackingNumber, t.labelUrl, DeliveryPending);
      Outcome(Ok(201, LabelReceipt(t.trackingNumber, t.labelUrl, t.trackingUrlProvider, DeliveryPending)),
              db.(shippingMethods := Insert(db.shippingMethods, sm), deliveries := Insert(db.deliveries, delivery)))
  }

  /**
   * Scheduling succeeds exactly when the label was bought; it then saves a
   * new pending delivery of the order, with the label's tracking number and
   * URL, on a shipping method of its own; otherwise it writes nothing.
   */
  lemma ScheduleEffect(db: Database, user: nat, orderId: nat, rateId: Option<string>, purchase: Option<LabelTransaction>)
    requires TablesValid(db)
    ensures var o := Schedule(db, user, orderId, rateId, purchase);
      && (!OwnedBy(db.orders, orderId, user) ==> o.reply == Refuse(NotFound))
      && (OwnedBy(db.orders, orderId, user) && !Truthy(rateId) ==> o.reply == Refuse(NoRateSelected))
      && (BuysLabel(db, user, orderId, rateId) && purchase.None? ==> o.reply == Refuse(CarrierError))
      && (BuysLabel(db, user, orderId, rateId) && purchase.Some? && !purchase.value.succeeded ==>
            o.reply == Refuse(LabelPurchaseFailed))
      && (o.reply.Ok? <==> BuysLabel(db, user, orderId, rateId) && purchase.Some? && purchase.value.succeeded)
      && (o.reply.Fail? ==> o.db == db)
      && (o.reply.Ok? ==>
            var t := purchase.value;
            var d := Delivery(orderId, db.shippingMethods.next, t.trackingNumber, t.labelUrl, DeliveryPending);
            && o.reply.code == 201
            && o.reply.value == LabelReceipt(t.trackingNumber, t.labelUrl, t.trackingUrlProvider, DeliveryPending)
            && Get(o.db.shippingMethods, db.shippingMethods.next) == Some(ShippingMethod("shippo", db.orders.rows[orderId].totalPrice))
            && Keys(o.db.shippingMethods) == Keys(db.shippingMethods) + {db.shippingMethods.next}
            && (forall k | k != db.shippingMethods.next :: Get(o.db.shippingMethods, k) == Get(db.shippingMethods, k))
            && Get(o.db.deliveries, db.deliveries.next) == Some(d)
            && Keys(o.db.deliveries) == Keys(db.deliveries) + {db.deliveries.next}
            && (forall k | k != db.deliveries.next :: Get(o.db.deliveries, k) == Get(db.deliveries, k))
            && o.db.(shippingMethods := db.shippingMethods, deliveries := db.deliveries) == db)
  {
  }

  /** Scheduling keeps a consistent database consistent: in particular no two deliveries share a shipping method. */
  lemma ScheduleConsistent(db: Database, user: nat, orderId: nat, rateId: Option<string>, purchase: Option<LabelTransaction>)
    requires TablesValid(db)
    ensures Consistent(db) ==> Consistent(Schedule(db, user, orderId, rateId, purchase).db)
  {
    var o := Schedule(db, user, orderId, rateId, purchase);
    if o.reply.Ok? {
      var t := purchase.value;
      var sm := ShippingMethod("shippo", db.orders.rows[orderId].totalPrice);
      var delivery := Delivery(orderId, db.shippingMethods.next, t.trackingNumber, t.labelUrl, DeliveryPending);
      NewDeliveryConsistent(db, sm, delivery);
      assert o.db == db.(shippingMethods := Insert(db.shippingMethods, sm), deliveries := Insert(db.deliveries, delivery));
    } else {
      assert o.db == db;
    }
  }

  /**
   * `change_delivery_status`: staff only (403), an existing delivery (404),
   * and a status among the delivery choices (400; a missing one included).
   */
  function SetDeliveryStatus(db: Database, requester: nat, pk: nat, status: Option<string>): (o: Outcome<DeliveryStatus>)
    requires TablesValid(db) && requester in Keys(db.users)
    ensures TablesValid(o.db) && o.db == db.(deliveries := o.db.deliveries)
  {
    if !db.users.rows[requester].isStaff then Outcome(Refuse(Forbidden), db)
    else if pk !in db.deliveries.rows then Outcome(Refuse(NotFound), db)
    else if status.None? then Outcome(Refuse(InvalidStatus), db)
    else match ParseDeliveryStatus(status.value)
      case None => Outcome(Refuse(InvalidStatus), db)
      case Some(s) => Outcome(Ok(200, s), db.(deliveries := Put(db.deliveries, pk, db.deliveries.rows[pk].(status := s))))
  }

  /**
   * A delivery status change succeeds exactly for staff, an existing
   * delivery and a declared status, and rewrites only that delivery's
   * status, to the named one.
   */
  lemma SetDeliveryStatusEffect(db: Database, requester: nat, pk: nat, status: Option<string>)
    requires TablesValid(db) && requester in Keys(db.users)
    ensures var o := SetDeliveryStatus(db, requester, pk, status);
      var staff := db.users.rows[requester].isStaff;
      && (!staff ==> o.reply == Refuse(Forbidden))
      && (staff && pk !in db.deliveries.rows ==> o.reply == Refuse(NotFound))
      && (staff && pk in db.deliveries.rows && (status.None? || status.value !in DELIVERY_STATUS_CHOICES) ==>
            o.reply == Refuse(InvalidStatus))
      && (o.reply.Ok? <==> staff && pk in db.deliveries.rows && status.Some? && status.value in DELIVERY_STATUS_CHOICES)
      && (o.reply.Fail? ==> o.db == db)
      && (o.reply.Ok? ==>
            && o.reply.code == 200 && DeliveryStatusName(o.reply.value) == status.value
            && Get(o.db.deliveries, pk) == Some(db.deliveries.rows[pk].(status := o.reply.value))
            && Keys(o.db.deliveries) == Keys(db.deliveries)
            && (forall k | k != pk :: Get(o.db.deliveries, k) == Get(db.deliveries, k)))
  {
  }

  /** A delivery status change keeps a consistent database consistent. */
  lemma SetDeliveryStatusConsistent(db: Database, requester: nat, pk: nat, status: Option<string>)
    requires TablesValid(db) && requester in Keys(db.users)
    ensures Consistent(db) ==> Consistent(SetDeliveryStatus(db, requester, pk, status).db)
  {
    var o := SetDeliveryStatus(db, requester, pk, status);
    if o.reply.Ok? {
      var d := db.deliveries.rows[pk].(status := o.reply.value);
      PutDeliveryConsistent(db, pk, d);
      assert o.db == db.(deliveries := Put(db.deliveries, pk, d));
    } else {
      assert o.db == db;
    }
  }
}
