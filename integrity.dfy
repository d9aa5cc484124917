/**
 * How each kind of write the views make keeps the database consistent: the
 * foreign keys still name existing rows and the one-to-one and unique
 * columns still hold.  Each lemma takes the database before the write and
 * states that a consistent database stays consistent under it.
 */
module Integrity {
  import opened Tables
  import opened Models
  import opened Carts
  import opened Orders

  /** `Cart.objects.get_or_create(user=user)` for an existing user. */
  lemma WithCartConsistent(db: Database, user: nat)
    requires Valid(db.carts) && user in Keys(db.users)
    ensures Consistent(db) ==> Consistent(db.(carts := WithCart(db.carts, user)))
  {
    if Consistent(db) && CartOf(db.carts, user).None? {
      assert WithCart(db.carts, user) == Insert(db.carts, Cart(user));
    }
  }

  /** Saving a cart line whose cart and product exist. */
  lemma PutLineConsistent(db: Database, id: nat, v: CartItem)
    requires Valid(db.cartItems) && id in Keys(db.cartItems)
    requires v.cart in Keys(db.carts) && v.product in Keys(db.products)
    ensures Consistent(db) ==> Consistent(db.(cartItems := Put(db.cartItems, id, v)))
  {
  }

  /** Creating a cart line whose cart and product exist. */
  lemma InsertLineConsistent(db: Database, v: CartItem)
    requires Valid(db.cartItems)
    requires v.cart in Keys(db.carts) && v.product in Keys(db.products)
    ensures Consistent(db) ==> Consistent(db.(cartItems := Insert(db.cartItems, v)))
  {
  }

  /** Deleting one cart line (nothing refers to cart lines). */
  lemma DeleteLineConsistent(db: Database, id: nat)
    requires Valid(db.cartItems)
    ensures Consistent(db) ==> Consistent(db.(cartItems := Delete(db.cartItems, id)))
  {
  }

  /** Deleting any set of cart lines. */
  lemma DeleteLinesConsistent(db: Database, drop: Row<CartItem> -> bool)
    requires Valid(db.cartItems)
    ensures Consistent(db) ==> Consistent(db.(cartItems := DeleteWhere(db.cartItems, drop)))
  {
  }

  /** Creating an order for an existing user. */
  lemma InsertOrderConsistent(db: Database, v: Order)
    requires Valid(db.orders) && v.user in Keys(db.users)
    ensures Consistent(db) ==> Consistent(db.(orders := Insert(db.orders, v)))
  {
  }

  /** Creating the order item for a cart line of the table: its product exists because the line's does. */
  lemma InsertItemConsistent(db: Database, order: nat, line: Row<CartItem>)
    requires Valid(db.orderItems) && order in Keys(db.orders) && Holds(db.cartItems, line)
    ensures Consistent(db) ==>
      Consistent(db.(orderItems := Insert(db.orderItems, ItemFor(order, db.products, line.val))))
  {
  }

  /** Saving an order without changing its user. */
  lemma PutOrderConsistent(db: Database, id: nat, v: Order)
    requires Valid(db.orders) && id in Keys(db.orders) && v.user == db.orders.rows[id].user
    ensures Consistent(db) ==> Consistent(db.(orders := Put(db.orders, id, v)))
  {
  }

  /** Creating a payment for an existing order. */
  lemma InsertPaymentConsistent(db: Database, v: Payment)
    requires Valid(db.payments) && v.order in Keys(db.orders)
    ensures Consistent(db) ==> Consistent(db.(payments := Insert(db.payments, v)))
  {
  }

  /** Creating a transaction for an existing payment. */
  lemma InsertTransactionConsistent(db: Database, v: Transaction)
    requires Valid(db.transactions) && v.payment in Keys(db.payments)
    ensures Consistent(db) ==> Consistent(db.(transactions := Insert(db.transactions, v)))
  {
  }

  /** Creating a shipping method (it refers to nothing). */
  lemma InsertMethodConsistent(db: Database, v: ShippingMethod)
    requires Valid(db.shippingMethods)
    ensures Consistent(db) ==> Consistent(db.(shippingMethods := Insert(db.shippingMethods, v)))
  {
  }

  /**
   * Creating a shipping method and then a delivery that uses it: no earlier
   * delivery can use the new method, so the one-to-one field holds.
   */
  lemma NewDeliveryConsistent(db: Database, sm: ShippingMethod, v: Delivery)
    requires Valid(db.shippingMethods) && Valid(db.deliveries)
    requires v.order in Keys(db.orders) && v.shippingMethod == db.shippingMethods.next
    ensures Consistent(db) ==>
      Consistent(db.(shippingMethods := Insert(db.shippingMethods, sm),
                     deliveries := Insert(db.deliveries, v)))
  {
    if Consistent(db) {
      var after := db.(shippingMethods := Insert(db.shippingMethods, sm),
                       deliveries := Insert(db.deliveries, v));
      assert forall k | k in db.deliveries.rows :: db.deliveries.rows[k].shippingMethod != v.shippingMethod;
      assert OneDeliveryPerMethod(after.deliveries);
    }
  }

  /** Saving a delivery without changing its order or its shipping method. */
  lemma PutDeliveryConsistent(db: Database, id: nat, v: Delivery)
    requires Valid(db.deliveries) && id in Keys(db.deliveries)
    requires v.order == db.deliveries.rows[id].order && v.shippingMethod == db.deliveries.rows[id].shippingMethod
    ensures Consistent(db) ==> Consistent(db.(deliveries := Put(db.deliveries, id, v)))
  {
  }

  /** Creating an account under an unused username. */
  lemma InsertUserConsistent(db: Database, u: User)
    requires Valid(db.users)
    requires forall k | k in db.users.rows :: db.users.rows[k].username != u.username
    ensures Consistent(db) ==> Consistent(db.(users := Insert(db.users, u)))
  {
    if Consistent(db) {
      var users := Insert(db.users, u);
      assert UsernamesUnique(users) by {
        forall a, b | a in users.rows && b in users.rows && a != b
          ensures users.rows[a].username != users.rows[b].username
        {
          assert Get(users, a) == (if a == db.users.next then Some(u) else Get(db.users, a));
          assert Get(users, b) == (if b == db.users.next then Some(u) else Get(db.users, b));
        }
      }
    }
  }

  /** Creating the profile of an existing account that has none. */
  lemma InsertProfileConsistent(db: Database, p: Profile)
    requires Valid(db.profiles) && p.user in db.users.rows
    requires forall k | k in db.profiles.rows :: db.profiles.rows[k].user != p.user
    ensures Consistent(db) ==> Consistent(db.(profiles := Insert(db.profiles, p)))
  {
  }

  /**
   * Creating an account under an unused username and then its profile: no
   * earlier profile can belong to the new account, so the one-to-one field holds.
   */
  lemma NewAccountConsistent(db: Database, u: User, p: Profile)
    requires Valid(db.users) && Valid(db.profiles) && p.user == db.users.next
    requires forall k | k in db.users.rows :: db.users.rows[k].username != u.username
    ensures Consistent(db) ==>
      Consistent(db.(users := Insert(db.users, u), profiles := Insert(db.profiles, p)))
  {
    InsertUserConsistent(db, u);
    var db1 := db.(users := Insert(db.users, u));
    if Consistent(db) {
      assert forall k | k in db.profiles.rows :: db.profiles.rows[k].user != p.user;
      InsertProfileConsistent(db1, p);
    }
  }

  /** Saving a line of an existing cart and product, or refusing to. */
  lemma SaveLineConsistent(db: Database, id: nat, cart: nat, product: nat, base: nat, quantity: Option<int>)
    requires Valid(db.cartItems) && id in Keys(db.cartItems)
    requires cart in Keys(db.carts) && product in Keys(db.products)
    ensures Consistent(db) ==>
      Consistent(db.(cartItems := SaveLine(db.cartItems, id, cart, product, base, quantity).items))
  {
    if quantity.Some? && base + quantity.value >= 0 {
      PutLineConsistent(db, id, CartItem(cart, product, base + quantity.value));
    }
  }

  /** add_cart_item: the cart it may create and every line it writes keep the database consistent. */
  lemma AddItemConsistent(db: Database, user: nat, productId: Option<nat>, quantity: Option<int>)
    requires Valid(db.carts) && Valid(db.cartItems) && user in Keys(db.users)
    ensures var w := AddItem(db.carts, db.cartItems, Keys(db.products), user, productId, quantity);
      Consistent(db) ==> Consistent(db.(carts := w.carts, cartItems := w.items))
  {
    var w := AddItem(db.carts, db.cartItems, Keys(db.products), user, productId, quantity);
    if productId.Some? && productId.value in db.products.rows {
      var product := productId.value;
      WithCartConsistent(db, user);
      var db1 := db.(carts := WithCart(db.carts, user));
      var cart := CartOf(db1.carts, user).value;
      var line := AddLine(db.cartItems, cart, product, quantity);
      assert w.carts == db1.carts && w.items == line.items;
      var found := Matching(db.cartItems, cart, product);
      if |found| == 1 {
        assert found[0] in found;
        SaveLineConsistent(db1, found[0].id, cart, product, found[0].val.quantity, quantity);
        assert line.items == SaveLine(db.cartItems, found[0].id, cart, product, found[0].val.quantity, quantity).items;
      } else if |found| == 0 {
        InsertLineConsistent(db1, CartItem(cart, product, 1));
        var db2 := db1.(cartItems := Insert(db.cartItems, CartItem(cart, product, 1)));
        SaveLineConsistent(db2, db.cartItems.next, cart, product, 0, quantity);
        assert line.items == SaveLine(db2.cartItems, db.cartItems.next, cart, product, 0, quantity).items;
      } else {
        assert line.items == db.cartItems;
      }
    }
  }
}
