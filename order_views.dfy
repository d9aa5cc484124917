/**
 * The order views as functions of the database: the user's order list, one
 * order, checkout of the cart, and the staff status change.
 */
module OrderViews {
  import opened Tables
  import opened Models
  import opened Carts
  import opened Orders
  import opened Integrity

  /** Whether a checkout request names a status that the order serializer accepts (it is required). */
  predicate StatusAccepted(status: Option<string>)
  {
    status.Some? && ParseOrderStatus(status.value).Some?
  }

  /**
   * `OrderCreateSerializer.create`: the lines joined through the requester
   * must not be empty (400).  A negative total (prices have no lower bound)
   * fails the positive-integer total column (500) before anything is
   * written.  Then one pending order with the lines' total, one order item
   * per line in the lines' order, and the lines deleted.
   */
  function CreateOrder(db: Database, user: nat): (o: Outcome<Row<Order>>)
    requires TablesValid(db)
    ensures TablesValid(o.db)
    ensures o.db == db.(orders := o.db.orders, orderItems := o.db.orderItems, cartItems := o.db.cartItems)
  {
    var lines := LinesOfUser(db.carts, db.cartItems, user);
    if lines == [] then Outcome(Refuse(CartIsEmpty), db)
    else if LinesTotal(db.products, lines) < 0 then Outcome(Refuse(IntegrityError), db)
    else
      var id := db.orders.next;
      var order := Order(user, LinesTotal(db.products, lines), Pending);
      Outcome(Ok(201, Row(id, order)),
              db.(orders := Insert(db.orders, order),
                  orderItems := InsertAll(db.orderItems, ItemsFor(id, db.products, lines)),
                  cartItems := DropUserLines(db.carts, db.cartItems, user)))
  }

  /**
   * `checkout_cart_view`: the cart must be the requester's (404) and the
   * request must name a declared status (400); then the serializer creates
   * the order.
   */
  function CheckoutCart(db: Database, user: nat, cartId: nat, status: Option<string>): (o: Outcome<Row<Order>>)
    requires TablesValid(db)
    ensures TablesValid(o.db)
  {
    if !(cartId in db.carts.rows && db.carts.rows[cartId].user == user) then Outcome(Refuse(NotFound), db)
    else if !StatusAccepted(status) then Outcome(Refuse(InvalidInput), db)
    else CreateOrder(db, user)
  }

  /**
   * Checkout creates an order exactly when the cart is the user's, the status
   * is a choice, the user has lines and their total is not negative;
   * otherwise nothing is written.
   */
  lemma CheckoutRefusals(db: Database, user: nat, cartId: nat, status: Option<string>)
    requires TablesValid(db)
    ensures var o := CheckoutCart(db, user, cartId, status);
      var owns := cartId in db.carts.rows && db.carts.rows[cartId].user == user;
      var lines := LinesOfUser(db.carts, db.cartItems, user);
      && (!owns ==> o.reply == Refuse(NotFound))
      && (owns && !StatusAccepted(status) ==> o.reply == Refuse(InvalidInput))
      && (owns && StatusAccepted(status) && lines == [] ==> o.reply == Refuse(CartIsEmpty))
      && (owns && StatusAccepted(status) && lines != [] && LinesTotal(db.products, lines) < 0 ==>
            o.reply == Refuse(IntegrityError))
      && (o.reply.Ok? <==> owns && StatusAccepted(status) && lines != [] && LinesTotal(db.products, lines) >= 0)
      && (o.reply.Ok? ==> o == CreateOrder(db, user))
      && (o.reply.Fail? ==> o.db == db)
  {
  }

  /**
   * A created order is a new pending order of the requester whose total is
   * the sum of price × quantity over the requester's lines, and that total
   * is also the sum of its items.
   */
  lemma CreateOrderTotal(db: Database, user: nat)
    requires TablesValid(db)
    ensures var o := CreateOrder(db, user);
      o.reply.Ok? ==>
        var lines := LinesOfUser(db.carts, db.cartItems, user);
        var id := o.reply.value.id;
        && o.reply.code == 201
        && id !in db.orders.rows && Get(o.db.orders, id) == Some(o.reply.value.val)
        && (forall k | k != id :: Get(o.db.orders, k) == Get(db.orders, k))
        && o.reply.value.val == Order(user, LinesTotal(db.products, lines), Pending)
        && ItemsTotal(ItemsFor(id, db.products, lines)) == o.reply.value.val.totalPrice
  {
    var o := CreateOrder(db, user);
    if o.reply.Ok? {
      ItemsTotalIsLinesTotal(db.orders.next, db.products, LinesOfUser(db.carts, db.cartItems, user));
    }
  }

  /**
   * The order items of a created order are the items for the requester's
   * lines, created one after another: they take the next keys, one per line
   * and in the lines' order, and earlier items stay.
   */
  lemma CreateOrderItems(db: Database, user: nat)
    requires TablesValid(db)
    ensures var o := CreateOrder(db, user);
      o.reply.Ok? ==>
        var lines := LinesOfUser(db.carts, db.cartItems, user);
        && o.db.orderItems == InsertAll(db.orderItems, ItemsFor(o.reply.value.id, db.products, lines))
        && (forall k :: k in Keys(o.db.orderItems) <==>
              k in Keys(db.orderItems) || db.orderItems.next <= k < db.orderItems.next + |lines|)
        && (forall k: nat | k < db.orderItems.next :: Get(o.db.orderItems, k) == Get(db.orderItems, k))
  {
    var o := CreateOrder(db, user);
    if o.reply.Ok? {
      var lines := LinesOfUser(db.carts, db.cartItems, user);
      assert o.reply.value.id == db.orders.next;
      assert o.db.orderItems == InsertAll(db.orderItems, ItemsFor(db.orders.next, db.products, lines));
    }
  }

  /** Creating an order empties the requester's cart lines and leaves every other line alone. */
  lemma CreateOrderEmptiesCart(db: Database, user: nat)
    requires TablesValid(db)
    ensures var o := CreateOrder(db, user);
      o.reply.Ok? ==>
        && LinesOfUser(o.db.carts, o.db.cartItems, user) == []
        && (forall k | k in db.cartItems.rows && !InCartOf(db.carts, user, Row(k, db.cartItems.rows[k])) ::
              k in o.db.cartItems.rows && o.db.cartItems.rows[k] == db.cartItems.rows[k])
  {
  }

  /**
   * With one cart per user, the lines checkout turns into the order are
   * exactly the lines of the cart named in the request, listed in key order.
   */
  lemma CheckoutUsesCart(db: Database, user: nat, cartId: nat, status: Option<string>)
    requires TablesValid(db) && OneCartPerUser(db.carts)
    ensures CheckoutCart(db, user, cartId, status).reply.Ok? ==>
      LinesOfUser(db.carts, db.cartItems, user) == LinesOf(db.cartItems, cartId)
  {
    if CheckoutCart(db, user, cartId, status).reply.Ok? {
      UserLinesAreCartLines(db.carts, db.cartItems, user, cartId);
    }
  }

  /** Creating the order items for lines of the cart table, one after another. */
  lemma {:induction false} InsertItemsConsistent(db: Database, order: nat, lines: seq<Row<CartItem>>)
    requires Valid(db.orderItems) && order in Keys(db.orders)
    requires forall line | line in lines :: Holds(db.cartItems, line)
    ensures Consistent(db) ==>
      Consistent(db.(orderItems := InsertAll(db.orderItems, ItemsFor(order, db.products, lines))))
  {
    if lines != [] {
      var front := lines[..|lines| - 1];
      var last := lines[|lines| - 1];
      assert forall line | line in front :: line in lines;
      InsertItemsConsistent(db, order, front);
      var items := ItemsFor(order, db.products, lines);
      assert items[..|items| - 1] == ItemsFor(order, db.products, front);
      var db1 := db.(orderItems := InsertAll(db.orderItems, ItemsFor(order, db.products, front)));
      InsertItemConsistent(db1, order, last);
    }
  }

  /** Checkout keeps a consistent database consistent. */
  lemma CheckoutConsistent(db: Database, user: nat, cartId: nat, status: Option<string>)
    requires TablesValid(db) && user in Keys(db.users)
    ensures Consistent(db) ==> Consistent(CheckoutCart(db, user, cartId, status).db)
  {
    var o := CheckoutCart(db, user, cartId, status);
    if o.reply.Ok? {
      assert o == CreateOrder(db, user);
      var lines := LinesOfUser(db.carts, db.cartItems, user);
      var id := db.orders.next;
      var order := Order(user, LinesTotal(db.products, lines), Pending);
      InsertOrderConsistent(db, order);
      var db1 := db.(orders := Insert(db.orders, order));
      InsertItemsConsistent(db1, id, lines);
      var db2 := db1.(orderItems := InsertAll(db.orderItems, ItemsFor(id, db.products, lines)));
      DeleteLinesConsistent(db2, (row: Row<CartItem>) => InCartOf(db.carts, user, row));
      assert o.db == db2.(cartItems := DropUserLines(db.carts, db.cartItems, user));
    } else {
      assert o.db == db;
    }
  }

  /**
   * `change_order_status_view`: staff only (403), the order must exist (404);
   * the partial update may leave the status out, and a status it names must
   * be a declared choice (400).
   */
  function SetOrderStatus(db: Database, requester: nat, pk: nat, status: Option<string>): (o: Outcome<Row<Order>>)
    requires TablesValid(db) && requester in Keys(db.users)
    ensures TablesValid(o.db) && o.db == db.(orders := o.db.orders)
  {
    if !db.users.rows[requester].isStaff then Outcome(Refuse(Forbidden), db)
    else if pk !in db.orders.rows then Outcome(Refuse(NotFound), db)
    else if status.None? then Outcome(Ok(200, Row(pk, db.orders.rows[pk])), db)
    else match ParseOrderStatus(status.value)
      case None => Outcome(Refuse(InvalidInput), db)
      case Some(s) =>
        var order := db.orders.rows[pk].(status := s);
        Outcome(Ok(200, Row(pk, order)), db.(orders := Put(db.orders, pk, order)))
  }

  /**
   * A status change succeeds exactly for staff, an existing order and an
   * absent or declared status; it rewrites only that order's status, to the
   * named choice, so it never stores `completed`.
   */
  lemma SetOrderStatusEffect(db: Database, requester: nat, pk: nat, status: Option<string>)
    requires TablesValid(db) && requester in Keys(db.users)
    ensures var o := SetOrderStatus(db, requester, pk, status);
      var staff := db.users.rows[requester].isStaff;
      && (!staff ==> o.reply == Refuse(Forbidden))
      && (staff && pk !in db.orders.rows ==> o.reply == Refuse(NotFound))
      && (staff && pk in db.orders.rows && status.Some? && status.value !in ORDER_STATUS_CHOICES ==> o.reply == Refuse(InvalidInput))
      && (o.reply.Ok? <==> staff && pk in db.orders.rows && (status.None? || status.value in ORDER_STATUS_CHOICES))
      && (o.reply.Fail? || status.None? ==> o.db == db)
      && (o.reply.Ok? ==>
            var before := db.orders.rows[pk];
            var after := o.reply.value.val;
            && o.reply.code == 200 && o.reply.value.id == pk
            && Get(o.db.orders, pk) == Some(after)
            && after.user == before.user && after.totalPrice == before.totalPrice
            && (status.Some? ==> OrderStatusName(after.status) == status.value && after.status != Completed)
            && (status.None? ==> after == before)
            && (forall k | k != pk :: Get(o.db.orders, k) == Get(db.orders, k)))
  {
  }

  /** A status change keeps a consistent database consistent. */
  lemma SetOrderStatusConsistent(db: Database, requester: nat, pk: nat, status: Option<string>)
    requires TablesValid(db) && requester in Keys(db.users)
    ensures Consistent(db) ==> Consistent(SetOrderStatus(db, requester, pk, status).db)
  {
    var o := SetOrderStatus(db, requester, pk, status);
    if o.reply.Ok? && status.Some? {
      PutOrderConsistent(db, pk, o.reply.value.val);
    }
  }
}
