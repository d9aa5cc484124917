/**
 * The rows of the shop's database, their status vocabularies, and what a
 * consistent database looks like (the foreign keys and one-to-one fields the
 * schema declares).  Money is in integer cents.
 */
module Models {
  import opened Tables

  /** An account of the framework's auth system. */
  datatype User = User(username: string, email: string, isStaff: bool)

  datatype Profile = Profile(
    user: nat,
    firstName: string,
    lastName: string,
    phoneNumber: string,
    addressLine1: string,
    addressLine2: string,
    city: string,
    state: string,
    postalCode: nat,
    country: string)

  /** The unit price in cents; the decimal column has no lower bound, so it may be negative. */
  datatype Product = Product(price: int)

  /** A cart belongs to exactly one user (a one-to-one field). */
  datatype Cart = Cart(user: nat)

  datatype CartItem = CartItem(cart: nat, product: nat, quantity: nat)

  /**
   * The five declared order statuses, plus `Completed`, which payment
   * processing stores although it is not one of the declared choices.
   */
  datatype OrderStatus = Pending | Processing | Shipping | Delivered | Cancelled | Completed

  datatype Order = Order(user: nat, totalPrice: nat, status: OrderStatus)

  /** `price` is the product's unit price at checkout time. */
  datatype OrderItem = OrderItem(order: nat, product: nat, quantity: nat, price: int)

  datatype PaymentStatus = PaymentPending | PaymentCompleted | PaymentFailed

  datatype Payment = Payment(order: nat, amount: nat, status: PaymentStatus)

  /** Its status is the gateway's status word, as stored by payment processing. */
  datatype Transaction = Transaction(payment: nat, status: PaymentStatus)

  datatype ShippingMethod = ShippingMethod(name: string, price: nat)

  datatype DeliveryStatus = DeliveryPending | InTransit | OutForDelivery | DeliveryDelivered | DeliveryFailed

  datatype Delivery = Delivery(
    order: nat,
    shippingMethod: nat,
    trackingNumber: string,
    labelUrl: string,
    status: DeliveryStatus)

  // ---------------------------------------------------------------------------
  // Status words

  const ORDER_STATUS_CHOICES: seq<string> := ["pending", "processing", "shipping", "delivered", "cancelled"]

  function OrderStatusName(s: OrderStatus): (w: string)
    ensures s != Completed <==> w in ORDER_STATUS_CHOICES
  {
    match s
    case Pending => "pending"
    case Processing => "processing"
    case Shipping => "shipping"
    case Delivered => "delivered"
    case Cancelled => "cancelled"
    case Completed => "completed"
  }

  /** The choice validation of the order's `status` field. */
  function ParseOrderStatus(w: string): (r: Option<OrderStatus>)
    ensures r.Some? <==> w in ORDER_STATUS_CHOICES
    ensures r.Some? ==> OrderStatusName(r.value) == w && r.value != Completed
  {
    if w == "pending" then Some(Pending)
    else if w == "processing" then Some(Processing)
    else if w == "shipping" then Some(Shipping)
    else if w == "delivered" then Some(Delivered)
    else if w == "cancelled" then Some(Cancelled)
    else None
  }

  /** Every declared order status, and only those, survives a write and a read back. */
  lemma OrderStatusRoundTrip(s: OrderStatus)
    ensures ParseOrderStatus(OrderStatusName(s)) == Some(s) <==> s != Completed
  {
  }

  const DELIVERY_STATUS_CHOICES: seq<string> := ["pending", "in_transit", "out_for_delivery", "delivered", "failed"]

  function DeliveryStatusName(s: DeliveryStatus): (w: string)
    ensures w in DELIVERY_STATUS_CHOICES
  {
    match s
    case DeliveryPending => "pending"
    case InTransit => "in_transit"
    case OutForDelivery => "out_for_delivery"
    case DeliveryDelivered => "delivered"
    case DeliveryFailed => "failed"
  }

  /** Membership in the delivery status choices. */
  function ParseDeliveryStatus(w: string): (r: Option<DeliveryStatus>)
    ensures r.Some? <==> w in DELIVERY_STATUS_CHOICES
    ensures r.Some? ==> DeliveryStatusName(r.value) == w
  {
    if w == "pending" then Some(DeliveryPending)
    else if w == "in_transit" then Some(InTransit)
    else if w == "out_for_delivery" then Some(OutForDelivery)
    else if w == "delivered" then Some(DeliveryDelivered)
    else if w == "failed" then Some(DeliveryFailed)
    else None
  }

  lemma DeliveryStatusRoundTrip(s: DeliveryStatus)
    ensures ParseDeliveryStatus(DeliveryStatusName(s)) == Some(s)
  {
  }

  // ---------------------------------------------------------------------------
  // Replies

  /** A request value is truthy when present and not the empty string. */
  predicate Truthy(v: Option<string>)
  {
    v.Some? && v.value != ""
  }

  /** Why a request was refused, each with the status code the view answers. */
  datatype Failure =
    | NotFound                  // get_object_or_404
    | Forbidden                 // a permission class said no
    | InvalidInput              // a serializer's is_valid() failed
    | CartIsEmpty               // "Your cart is empty."
    | NotEligibleForPayment     // "Order is not eligible for payment."
    | PaymentMethodRequired     // "Payment method is required."
    | InvalidPaymentMethod      // "Invalid payment method."
    | AddressIncomplete         // "All address fields are required"
    | CarrierError              // an exception from the carrier's API
    | NoRateSelected            // "No rate selected"
    | LabelPurchaseFailed       // the label transaction did not succeed
    | InvalidStatus             // "Invalid status"
    | EmailExists               // "Email already exists!"
    | ConversionError           // int() of a missing or non-numeric value
    | IntegrityError            // a database constraint refused the write
    | MultipleObjectsReturned   // get_or_create found more than one row

  function Code(f: Failure): (c: nat)
    ensures 400 <= c < 600
    ensures c == 500 <==> f in {CarrierError, ConversionError, IntegrityError, MultipleObjectsReturned}
  {
    match f
    case NotFound => 404
    case Forbidden => 403
    case CarrierError | ConversionError | IntegrityError | MultipleObjectsReturned => 500
    case _ => 400
  }

  /** What a view answers: a success status code with a value, or a failure. */
  datatype Reply<T> = Ok(code: nat, value: T) | Fail(code: nat, failure: Failure)

  /** A view's reply and the database it leaves behind. */
  datatype Outcome<T> = Outcome(reply: Reply<T>, db: Database)

  function Refuse<T>(f: Failure): (r: Reply<T>)
    ensures r.Fail? && r.failure == f && r.code == Code(f)
  {
    Fail(Code(f), f)
  }

  // ---------------------------------------------------------------------------
  // The database

  datatype Database = Database(
    users: Table<User>,
    profiles: Table<Profile>,
    products: Table<Product>,
    carts: Table<Cart>,
    cartItems: Table<CartItem>,
    orders: Table<Order>,
    orderItems: Table<OrderItem>,
    payments: Table<Payment>,
    transactions: Table<Transaction>,
    shippingMethods: Table<ShippingMethod>,
    deliveries: Table<Delivery>)

  ghost predicate TablesValid(db: Database)
  {
    && Valid(db.users) && Valid(db.profiles) && Valid(db.products)
    && Valid(db.carts) && Valid(db.cartItems) && Valid(db.orders)
    && Valid(db.orderItems) && Valid(db.payments) && Valid(db.transactions)
    && Valid(db.shippingMethods) && Valid(db.deliveries)
  }

  /** The auth system's unique constraint on usernames. */
  ghost predicate UsernamesUnique(users: Table<User>)
  {
    forall a, b | a in users.rows && b in users.rows && a != b :: users.rows[a].username != users.rows[b].username
  }

  /** The one-to-one field from Cart to User. */
  ghost predicate OneCartPerUser(carts: Table<Cart>)
  {
    forall a, b | a in carts.rows && b in carts.rows && a != b :: carts.rows[a].user != carts.rows[b].user
  }

  /** The one-to-one field from Profile to User. */
  ghost predicate OneProfilePerUser(profiles: Table<Profile>)
  {
    forall a, b | a in profiles.rows && b in profiles.rows && a != b :: profiles.rows[a].user != profiles.rows[b].user
  }

  /** The one-to-one field from Delivery to ShippingMethod. */
  ghost predicate OneDeliveryPerMethod(deliveries: Table<Delivery>)
  {
    forall a, b | a in deliveries.rows && b in deliveries.rows && a != b ::
      deliveries.rows[a].shippingMethod != deliveries.rows[b].shippingMethod
  }

  // Each foreign key, stated over the tables it joins.

  ghost predicate ProfilesRefer(profiles: Table<Profile>, users: Table<User>)
  {
    forall k | k in profiles.rows :: profiles.rows[k].user in users.rows
  }

  ghost predicate CartsRefer(carts: Table<Cart>, users: Table<User>)
  {
    forall k | k in carts.rows :: carts.rows[k].user in users.rows
  }

  ghost predicate LinesRefer(items: Table<CartItem>, carts: Table<Cart>, products: Table<Product>)
  {
    forall k | k in items.rows :: items.rows[k].cart in carts.rows && items.rows[k].product in products.rows
  }

  ghost predicate OrdersRefer(orders: Table<Order>, users: Table<User>)
  {
    forall k | k in orders.rows :: orders.rows[k].user in users.rows
  }

  ghost predicate ItemsRefer(items: Table<OrderItem>, orders: Table<Order>, products: Table<Product>)
  {
    forall k | k in items.rows :: items.rows[k].order in orders.rows && items.rows[k].product in products.rows
  }

  ghost predicate PaymentsRefer(payments: Table<Payment>, orders: Table<Order>)
  {
    forall k | k in payments.rows :: payments.rows[k].order in orders.rows
  }

  ghost predicate TransactionsRefer(transactions: Table<Transaction>, payments: Table<Payment>)
  {
    forall k | k in transactions.rows :: transactions.rows[k].payment in payments.rows
  }

  ghost predicate DeliveriesRefer(deliveries: Table<Delivery>, orders: Table<Order>, methods: Table<ShippingMethod>)
  {
    forall k | k in deliveries.rows ::
      deliveries.rows[k].order in orders.rows && deliveries.rows[k].shippingMethod in methods.rows
  }

  /** Every foreign key names an existing row. */
  ghost predicate ForeignKeys(db: Database)
  {
    && ProfilesRefer(db.profiles, db.users)
    && CartsRefer(db.carts, db.users)
    && LinesRefer(db.cartItems, db.carts, db.products)
    && OrdersRefer(db.orders, db.users)
    && ItemsRefer(db.orderItems, db.orders, db.products)
    && PaymentsRefer(db.payments, db.orders)
    && TransactionsRefer(db.transactions, db.payments)
    && DeliveriesRefer(db.deliveries, db.orders, db.shippingMethods)
  }

  ghost predicate Consistent(db: Database)
  {
    && TablesValid(db)
    && UsernamesUnique(db.users)
    && OneCartPerUser(db.carts)
    && OneProfilePerUser(db.profiles)
    && OneDeliveryPerMethod(db.deliveries)
    && ForeignKeys(db)
  }
}
