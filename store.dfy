/**
 * The shop's database as one object whose tables the views rewrite, and each
 * view as a method on it.  A method answers the view's reply and leaves the
 * tables as the view leaves them, including the rows a view has already
 * written when it fails part-way (requests are not run in a transaction).
 * Calls to Stripe and Shippo are recorded in `gatewayCalls`; what they answer
 * is a parameter of the method that makes the call.
 *
 * Each state-changing method ensures that its reply and the new `State()`
 * are exactly what the view's function (in the modules `CartViews`,
 * `OrderViews`, `PaymentViews`, `ShippingViews` and `Users`) computes from the
 * old state; what the views promise, including that they keep a consistent
 * database consistent, is proved there as lemmas about those functions.
 * `Valid()` is what every method needs (each table's keys are below its next
 * key); the constructor also establishes `Consistent(State())`.
 */
module Shop {
  import opened Tables
  import opened Models
  import opened Carts
  import opened Orders
  import opened Payments
  import opened Shipping
  import opened Users
  import opened Integrity
  import opened CartViews
  import opened OrderViews
  import opened PaymentViews
  import opened ShippingViews

  /** A request sent to an outside service. */
  datatype GatewayCall =
    | StripeCharge(amount: nat)
    | ShippoShipment(address: AddressForm)
    | ShippoLabel(rateId: string)

  /** A database holding a product catalog and some accounts, and nothing else. */
  function Initial(catalog: seq<Product>, accounts: seq<User>): (db: Database)
    ensures TablesValid(db)
    ensures forall k :: k in Keys(db.products) <==> 1 <= k <= |catalog|
    ensures forall k :: k in Keys(db.users) <==> 1 <= k <= |accounts|
    ensures forall k | k in db.products.rows :: db.products.rows[k] == catalog[k - 1]
    ensures forall k | k in db.users.rows :: db.users.rows[k] == accounts[k - 1]
    ensures Keys(db.profiles) == Keys(db.carts) == Keys(db.cartItems) == Keys(db.orders) == Keys(db.orderItems) == {}
    ensures Keys(db.payments) == Keys(db.transactions) == Keys(db.shippingMethods) == Keys(db.deliveries) == {}
  {
    Database(FromSeq(accounts), Empty(), FromSeq(catalog), Empty(), Empty(), Empty(), Empty(),
             Empty(), Empty(), Empty(), Empty())
  }

  /** With distinct usernames, the initial database is consistent: nothing refers to anything yet. */
  lemma InitialConsistent(catalog: seq<Product>, accounts: seq<User>)
    requires forall i, j | 0 <= i < j < |accounts| :: accounts[i].username != accounts[j].username
    ensures Consistent(Initial(catalog, accounts))
  {
    var users := Initial(catalog, accounts).users;
    forall a, b | a in users.rows && b in users.rows && a != b
      ensures users.rows[a].username != users.rows[b].username
    {
      if a < b {
        assert accounts[a - 1].username != accounts[b - 1].username;
      } else {
        assert accounts[b - 1].username != accounts[a - 1].username;
      }
    }
  }

  class Store {
    var users: Table<User>
    var profiles: Table<Profile>
    var products: Table<Product>
    var carts: Table<Cart>
    var cartItems: Table<CartItem>
    var orders: Table<Order>
    var orderItems: Table<OrderItem>
    var payments: Table<Payment>
    var transactions: Table<Transaction>
    var shippingMethods: Table<ShippingMethod>
    var deliveries: Table<Delivery>
    /** Every request sent to Stripe or Shippo, oldest first. */
    var gatewayCalls: seq<GatewayCall>

    function State(): Database
      reads this
    {
      Database(users, profiles, products, carts, cartItems, orders, orderItems,
               payments, transactions, shippingMethods, deliveries)
    }

    ghost predicate Valid()
      reads this
    {
      TablesValid(State())
    }

    /** A database holding the product catalog and the given accounts, and nothing else. */
    constructor (catalog: seq<Product>, accounts: seq<User>)
      requires forall i, j | 0 <= i < j < |accounts| :: accounts[i].username != accounts[j].username
      ensures Valid() && Consistent(State())
      ensures State() == Initial(catalog, accounts) && gatewayCalls == []
    {
      var db := Initial(catalog, accounts);
      InitialConsistent(catalog, accounts);
      users := db.users;
      profiles := db.profiles;
      products := db.products;
      carts := db.carts;
      cartItems := db.cartItems;
      orders := db.orders;
      orderItems := db.orderItems;
      payments := db.payments;
      transactions := db.transactions;
      shippingMethods := db.shippingMethods;
      deliveries := db.deliveries;
      gatewayCalls := [];
    }

    /** The `is_staff` flag of an authenticated user. */
    function IsStaff(user: nat): bool
      reads this
      requires user in Keys(users)
    {
      users.rows[user].isStaff
    }

    // -------------------------------------------------------------------------
    // Cart views

    /** `Cart.objects.get_or_create(user=user)`. */
    method GetOrCreateCart(user: nat) returns (cart: nat)
      requires Valid()
      modifies this`carts
      ensures Valid()
      ensures carts == WithCart(old(carts), user)
      ensures CartOf(carts, user) == Some(cart)
      ensures old(CartOf(carts, user)).Some? ==> cart == old(CartOf(carts, user)).value
    {
      carts := WithCart(carts, user);
      cart := CartOf(carts, user).value;
    }

    /** Show the requester's cart, creating it when they have none. */
    method ViewCart(requester: nat) returns (r: Reply<CartView>)
      requires Valid()
      modifies this`carts
      ensures Valid()
      ensures Outcome(r, State()) == ShowCart(old(State()), requester)
    {
      var cart := GetOrCreateCart(requester);
      r := Ok(200, CartView(cart, LinesOf(cartItems, cart)));
    }

    /** Save line `id` with `int(quantity)` added to `base` units. */
    method SaveCartLine(id: nat, cart: nat, product: nat, base: nat, quantity: Option<int>) returns (failure: Option<Failure>)
      requires Valid() && id in Keys(cartItems)
      modifies this`cartItems
      ensures Valid()
      ensures LineWrite(failure, cartItems) == SaveLine(old(cartItems), id, cart, product, base, quantity)
    {
      if quantity.None? {
        return Some(ConversionError);
      }
      if base + quantity.value < 0 {
        return Some(IntegrityError);
      }
      cartItems := Put(cartItems, id, CartItem(cart, product, base + quantity.value));
      failure := None;
    }

    /**
     * `CartItem.objects.get_or_create(cart=cart, product=product)`, then the
     * quantity update and save.
     */
    method AddCartLine(cart: nat, product: nat, quantity: Option<int>) returns (failure: Option<Failure>)
      requires Valid()
      modifies this`cartItems
      ensures Valid()
      ensures LineWrite(failure, cartItems) == AddLine(old(cartItems), cart, product, quantity)
    {
      var found := Matching(cartItems, cart, product);
      if |found| > 1 {
        return Some(MultipleObjectsReturned);
      }
      if |found| == 1 {
        // quantity += int(quantity)
        assert found[0] in found;
        failure := SaveCartLine(found[0].id, cart, product, found[0].val.quantity, quantity);
      } else {
        // a new line with the field's default quantity, then quantity = int(quantity)
        var id := cartItems.next;
        cartItems := Insert(cartItems, CartItem(cart, product, 1));
        failure := SaveCartLine(id, cart, product, 0, quantity);
      }
    }

    /**
     * Add `quantity` units of a product to the requester's cart: merged into the
     * cart's line for that product when there is one, a new line otherwise.
     */
    method AddCartItem(requester: nat, productId: Option<nat>, quantity: Option<int>) returns (r: Reply<CartView>)
      requires Valid()
      modifies this`carts, this`cartItems
      ensures Valid()
      ensures CartWrite(r, carts, cartItems) == AddItem(old(carts), old(cartItems), Keys(products), requester, productId, quantity)
    {
      if productId.None? || Get(products, productId.value).None? {
        r := Refuse(NotFound);
      } else {
        var cart := GetOrCreateCart(requester);
        var failure := AddCartLine(cart, productId.value, quantity);
        r := if failure.Some? then Refuse(failure.value) else Ok(200, CartView(cart, LinesOf(cartItems, cart)));
      }
    }
 
    /** Rewrite any cart line with the serializer's fields. */
    method EditCartItem(pk: nat, form: CartItemForm) returns (r: Reply<CartItem>)
      requires Valid()
      modifies this`cartItems
      ensures Valid()
      ensures Outcome(r, State()) == EditItem(old(State()), pk, form)
    {
      if pk !in cartItems.rows {
        return Refuse(NotFound);
      }
      if !FormValid(State(), form) {
        return Refuse(InvalidInput);
      }
      var line := cartItems.rows[pk];
      if form.quantity.Some? {
        line := CartItem(form.cart.value, form.product.value, form.quantity.value);
      } else {
        line := line.(cart := form.cart.value, product := form.product.value);
      }
      cartItems := Put(cartItems, pk, line);
      r := Ok(200, line);
    }

    /** Delete any cart line. */
    method DeleteCartItem(pk: nat) returns (r: Reply<()>)
      requires Valid()
      modifies this`cartItems
      ensures Valid()
      ensures Outcome(r, State()) == DeleteItem(old(State()), pk)
    {
      if pk !in cartItems.rows {
        return Refuse(NotFound);
      }
      cartItems := Delete(cartItems, pk);
      r := Ok(200, ());
    }

    /** Delete every line of the requester's cart, creating the cart when they have none. */
    method ClearCart(requester: nat) returns (r: Reply<()>)
      requires Valid()
      modifies this`carts, this`cartItems
      ensures Valid()
      ensures Outcome(r, State()) == ClearItems(old(State()), requester)
    {
      var cart := GetOrCreateCart(requester);
      cartItems := DropCartLines(cartItems, cart);
      r := Ok(204, ());
    }

    // -------------------------------------------------------------------------
    // Order views

    /** The requester's orders, in key order. */
    method ViewOrders(requester: nat) returns (r: Reply<seq<Row<Order>>>)
      requires Valid()
      ensures r.Ok? && r.code == 200 && Ascending(r.value)
      ensures forall row :: row in r.value <==> Holds(orders, row) && row.val.user == requester
    {
      r := Ok(200, Query(orders, (row: Row<Order>) => row.val.user == requester));
    }

    /** One of the requester's own orders; anyone else's, or a missing one, is not found. */
    method RetrieveOrder(requester: nat, pk: nat) returns (r: Reply<Row<Order>>)
      ensures r.Ok? <==> OwnedBy(orders, pk, requester)
      ensures r.Ok? ==> r.code == 200 && r.value == Row(pk, orders.rows[pk])
      ensures r.Fail? ==> r == Refuse(NotFound)
    {
      if !OwnedBy(orders, pk, requester) {
        return Refuse(NotFound);
      }
      r := Ok(200, Row(pk, orders.rows[pk]));
    }

    /** `OrderItem.objects.create(...)` for each line in turn. */
    method CreateOrderItems(order: nat, lines: seq<Row<CartItem>>)
      requires Valid()
      modifies this`orderItems
      ensures Valid()
      ensures orderItems == InsertAll(old(orderItems), ItemsFor(order, products, lines))
    {
      var i := 0;
      while i < |lines|
        invariant 0 <= i <= |lines| && Valid()
        invariant orderItems == InsertAll(old(orderItems), ItemsFor(order, products, lines[..i]))
      {
        ghost var done := ItemsFor(order, products, lines[..i]);
        ghost var next := ItemsFor(order, products, lines[..i + 1]);
        assert lines[..i + 1][..i] == lines[..i];
        assert next == done + [ItemFor(order, products, lines[i].val)];
        assert next[..|next| - 1] == done;
        orderItems := Insert(orderItems, ItemFor(order, products, lines[i].val));
        i := i + 1;
      }
      assert lines[..i] == lines;
    }

    /** The serializer's `create`: total, order, items, then the requester's lines deleted. */
    method SaveOrder(requester: nat) returns (r: Reply<Row<Order>>)
      requires Valid()
      modifies this`orders, this`orderItems, this`cartItems
      ensures Valid()
      ensures Outcome(r, State()) == CreateOrder(old(State()), requester)
    {
      var lines := LinesOfUser(carts, cartItems, requester);
      if lines == [] {
        return Refuse(CartIsEmpty);
      }
      var total := CartTotal(products, lines);
      if total < 0 {
        return Refuse(IntegrityError);
      }
      var id := orders.next;
      var order := Order(requester, total, Pending);
      orders := Insert(orders, order);
      CreateOrderItems(id, lines);
      cartItems := DropUserLines(carts, cartItems, requester);
      r := Ok(201, Row(id, order));
    }

    /** Check out the requester's cart into a new order. */
    method Checkout(requester: nat, cartId: nat, status: Option<string>) returns (r: Reply<Row<Order>>)
      requires Valid()
      modifies this`orders, this`orderItems, this`cartItems
      ensures Valid()
      ensures Outcome(r, State()) == CheckoutCart(old(State()), requester, cartId, status)
    {
      if !(cartId in carts.rows && carts.rows[cartId].user == requester) {
        return Refuse(NotFound);
      }
      if !StatusAccepted(status) {
        return Refuse(InvalidInput);
      }
      r := SaveOrder(requester);
    }

    /** Staff set an order's status. */
    method ChangeOrderStatus(requester: nat, pk: nat, status: Option<string>) returns (r: Reply<Row<Order>>)
      requires Valid() && requester in Keys(users)
      modifies this`orders
      ensures Valid()
      ensures Outcome(r, State()) == SetOrderStatus(old(State()), requester, pk, status)
    {
      if !IsStaff(requester) {
        return Refuse(Forbidden);
      }
      if pk !in orders.rows {
        return Refuse(NotFound);
      }
      if status.None? {
        return Ok(200, Row(pk, orders.rows[pk]));
      }
      var s := ParseOrderStatus(status.value);
      if s.None? {
        return Refuse(InvalidInput);
      }
      var order := orders.rows[pk].(status := s.value);
      orders := Put(orders, pk, order);
      r := Ok(200, Row(pk, order));
    }
 
    // -------------------------------------------------------------------------
    // Payment views

    /**
     * Process the payment of one of the requester's orders; `stripe` is what
     * the Stripe call reports when the view gets that far.
     */
    method ProcessPayment(requester: nat, orderId: nat, platform: Option<string>, stripe: StripeOutcome)
      returns (r: Reply<PaymentStatus>)
      requires Valid()
      modifies this`orders, this`payments, this`transactions, this`gatewayCalls
      ensures Valid()
      ensures Outcome(r, State()) == Pay(old(State()), requester, orderId, platform, stripe)
      ensures gatewayCalls == old(gatewayCalls) + if r.Ok? then [StripeCharge(old(orders).rows[orderId].totalPrice)] else []
    {
      if !OwnedBy(orders, orderId, requester) {
        return Refuse(NotFound);
      }
      var order := orders.rows[orderId];
      if order.status != Pending {
        return Refuse(NotEligibleForPayment);
      }
      var values := PlatformValues(PAYMENT_PLATFORM_CHOICES);
      OnlyStripe(values);
      if !Truthy(platform) {
        return Refuse(PaymentMethodRequired);
      }
      if platform.value !in values {
        return Refuse(InvalidPaymentMethod);
      }
      gatewayCalls := gatewayCalls + [StripeCharge(order.totalPrice)];
      r := SavePayment(orderId, stripe);
    }

    /** Record the payment and its transaction, and complete the order when the charge went through. */
    method SavePayment(orderId: nat, stripe: StripeOutcome) returns (r: Reply<PaymentStatus>)
      requires Valid() && orderId in orders.rows
      modifies this`orders, this`payments, this`transactions
      ensures Valid()
      ensures Outcome(r, State()) == RecordCharge(old(State()), orderId, stripe)
    {
      var order := orders.rows[orderId];
      var status := ChargeStatus(stripe);
      var paymentId := payments.next;
      payments := Insert(payments, Payment(orderId, order.totalPrice, status));
      transactions := Insert(transactions, Transaction(paymentId, status));
      if status == PaymentCompleted {
        orders := Put(orders, orderId, order.(status := Completed));
      }
      r := Ok(201, status);
    }

    /**
     * `PaymentDetailView`: a payment (404 otherwise) that the requester may
     * see under the owner-or-admin permission (403 otherwise).
     */
    method RetrievePayment(requester: nat, pk: nat) returns (r: Reply<Row<Payment>>)
      requires requester in Keys(users)
      requires forall k | k in payments.rows :: payments.rows[k].order in orders.rows
      ensures pk !in payments.rows ==> r == Refuse(NotFound)
      ensures pk in payments.rows ==>
        var allowed := IsStaff(requester) || orders.rows[payments.rows[pk].order].user == requester;
        && (allowed ==> r == Ok(200, Row(pk, payments.rows[pk])))
        && (!allowed ==> r == Refuse(Forbidden))
    {
      if pk !in payments.rows {
        return Refuse(NotFound);
      }
      var payment := payments.rows[pk];
      if !IsOwnerOrAdmin(requester, IsStaff(requester), orders.rows[payment.order].user) {
        return Refuse(Forbidden);
      }
      r := Ok(200, Row(pk, payment));
    }
 
    // -------------------------------------------------------------------------
    // Shipping views

    /**
     * Ask the carrier for rates for one of the requester's orders;
     * `shipment` is its shipment, or None when one of its calls raised.
     */
    method GetShippingRates(requester: nat, orderId: nat, address: AddressForm, shipment: Option<seq<ShipmentRate>>)
      returns (r: Reply<seq<RateOption>>)
      requires Valid()
      modifies this`shippingMethods, this`gatewayCalls
      ensures Valid()
      ensures Outcome(r, State()) == Rates(old(State()), requester, orderId, address, shipment)
      ensures gatewayCalls == old(gatewayCalls) +
        if AsksForRates(old(State()), requester, orderId, address) then [ShippoShipment(address)] else []
    {
      if !OwnedBy(orders, orderId, requester) {
        return Refuse(NotFound);
      }
      if !AddressComplete(address) {
        return Refuse(AddressIncomplete);
      }
      shippingMethods := Insert(shippingMethods, ShippingMethod("shippo", orders.rows[orderId].totalPrice));
      gatewayCalls := gatewayCalls + [ShippoShipment(address)];
      if shipment.None? {
        return Refuse(CarrierError);
      }
      var options := RateOptions(shipment.value);
      r := Ok(200, options);
    }

    /**
     * Buy a label for one of the requester's orders with the chosen rate and
     * record the delivery; `purchase` is the carrier's transaction, or None
     * when the purchase raised.
     */
    method ScheduleDelivery(requester: nat, orderId: nat, rateId: Option<string>, purchase: Option<LabelTransaction>)
      returns (r: Reply<LabelReceipt>)
      requires Valid()
      modifies this`shippingMethods, this`deliveries, this`gatewayCalls
      ensures Valid()
      ensures Outcome(r, State()) == Schedule(old(State()), requester, orderId, rateId, purchase)
      ensures gatewayCalls == old(gatewayCalls) +
        if BuysLabel(old(State()), requester, orderId, rateId) then [ShippoLabel(rateId.value)] else []
    {
      if !OwnedBy(orders, orderId, requester) {
        return Refuse(NotFound);
      }
      if !Truthy(rateId) {
        return Refuse(NoRateSelected);
      }
      gatewayCalls := gatewayCalls + [ShippoLabel(rateId.value)];
      if purchase.None? {
        return Refuse(CarrierError);
      }
      var t := purchase.value;
      if !t.succeeded {
        return Refuse(LabelPurchaseFailed);
      }
      var methodId := shippingMethods.next;
      shippingMethods := Insert(shippingMethods, ShippingMethod("shippo", orders.rows[orderId].totalPrice));
      deliveries := Insert(deliveries, Delivery(orderId, methodId, t.trackingNumber, t.labelUrl, DeliveryPending));
      r := Ok(201, LabelReceipt(t.trackingNumber, t.labelUrl, t.trackingUrlProvider, DeliveryPending));
    }

    /** Staff set a delivery's status. */
    method ChangeDeliveryStatus(requester: nat, pk: nat, status: Option<string>) returns (r: Reply<DeliveryStatus>)
      requires Valid() && requester in Keys(users)
      modifies this`deliveries
      ensures Valid()
      ensures Outcome(r, State()) == SetDeliveryStatus(old(State()), requester, pk, status)
    {
      if !IsStaff(requester) {
        return Refuse(Forbidden);
      }
      if pk !in deliveries.rows {
        return Refuse(NotFound);
      }
      if status.None? {
        return Refuse(InvalidStatus);
      }
      var s := ParseDeliveryStatus(status.value);
      if s.None? {
        return Refuse(InvalidStatus);
      }
      deliveries := Put(deliveries, pk, deliveries.rows[pk].(status := s.value));
      r := Ok(200, s.value);
    }

    /** Staff read a delivery. */
    method CheckDeliveryStatus(requester: nat, pk: nat) returns (r: Reply<Row<Delivery>>)
      requires requester in Keys(users)
      ensures !IsStaff(requester) ==> r == Refuse(Forbidden)
      ensures IsStaff(requester) && pk !in deliveries.rows ==> r == Refuse(NotFound)
      ensures IsStaff(requester) && pk in deliveries.rows ==> r == Ok(200, Row(pk, deliveries.rows[pk]))
    {
      if !IsStaff(requester) {
        return Refuse(Forbidden);
      }
      if pk !in deliveries.rows {
        return Refuse(NotFound);
      }
      r := Ok(200, Row(pk, deliveries.rows[pk]));
    }
 
    // -------------------------------------------------------------------------
    // Registration

    /** Register an account and its profile from the request's fields, trimmed as the serializer does. */
    method Register(reg: Registration) returns (r: Reply<nat>)
      requires Valid()
      modifies this`users, this`profiles
      ensures Valid()
      ensures Outcome(r, State()) == RegisterAccount(old(State()), reg)
    {
      r := SaveAccount(Cleaned(reg));
    }

    /** Validate the trimmed form and save the account and its profile. */
    method SaveAccount(form: Registration) returns (r: Reply<nat>)
      requires Valid()
      modifies this`users, this`profiles
      ensures Valid()
      ensures Outcome(r, State()) == SaveRegistration(old(State()), form)
    {
      if !RegistrationValid(form) {
        return Refuse(InvalidInput);
      }
      if Taken(users, (u: User) => u.email, form.email) {
        return Refuse(EmailExists);
      }
      if Taken(users, (u: User) => u.username, form.username) {
        return Refuse(IntegrityError);
      }
      var user := users.next;
      users := Insert(users, User(form.username, form.email, false));
      profiles := Insert(profiles, ProfileFor(user, form));
      r := Ok(201, user);
    }
  }
}
