/**
 * The cart views other than adding an item (see `Carts.AddItem`) as
 * functions of the database: showing the cart, editing a line, deleting a
 * line and clearing the cart.
 */
module CartViews {
  import opened Tables
  import opened Models
  import opened Carts
  import opened Integrity

  /**
   * The fields the cart item serializer reads on an edit, each absent or
   * holding a value: cart and product are required, and a missing quantity
   * keeps the stored one.
   */
  datatype CartItemForm = CartItemForm(cart: Option<nat>, product: Option<nat>, quantity: Option<int>)

  /** `view_cart_view`: the requester's cart, created when they have none. */
  function ShowCart(db: Database, user: nat): (o: Outcome<CartView>)
    requires TablesValid(db)
    ensures TablesValid(o.db) && o.db == db.(carts := o.db.carts)
  {
    var carts := WithCart(db.carts, user);
    var cart := CartOf(carts, user).value;
    Outcome(Ok(200, CartView(cart, LinesOf(db.cartItems, cart))), db.(carts := carts))
  }

  /**
   * Showing the cart always answers 200 with the requester's cart (the same
   * one when they had one) and exactly its lines, in key order.
   */
  lemma ShowCartLists(db: Database, user: nat)
    requires TablesValid(db)
    ensures var o := ShowCart(db, user);
      && o.reply.Ok? && o.reply.code == 200
      && CartOf(o.db.carts, user) == Some(o.reply.value.cart)
      && (CartOf(db.carts, user).Some? ==> o.reply.value.cart == CartOf(db.carts, user).value && o.db == db)
      && Ascending(o.reply.value.lines)
      && (forall row :: row in o.reply.value.lines <==> Holds(db.cartItems, row) && row.val.cart == o.reply.value.cart)
      && (CartOf(db.carts, user).None? && ForeignKeys(db) ==> o.reply.value.lines == [])
  {
    var o := ShowCart(db, user);
    if CartOf(db.carts, user).None? && ForeignKeys(db) {
      assert o.reply.value.cart == db.carts.next;
      assert forall k | k in db.cartItems.rows :: db.cartItems.rows[k].cart != db.carts.next;
    }
  }

  /** Showing the cart of an existing user keeps a consistent database consistent. */
  lemma ShowCartConsistent(db: Database, user: nat)
    requires TablesValid(db) && user in Keys(db.users)
    ensures Consistent(db) ==> Consistent(ShowCart(db, user).db)
  {
    WithCartConsistent(db, user);
  }

  /** Whether the serializer accepts the form: an existing cart and product, both given, and a quantity that is not negative. */
  predicate FormValid(db: Database, form: CartItemForm)
  {
    && form.cart.Some? && form.cart.value in db.carts.rows
    && form.product.Some? && form.product.value in db.products.rows
    && (form.quantity.Some? ==> form.quantity.value >= 0)
  }

  /**
   * `edit_cart_item_view`: any existing line (404 otherwise) is rewritten
   * with the form's fields when the serializer accepts them (400 otherwise).
   */
  function EditItem(db: Database, pk: nat, form: CartItemForm): (o: Outcome<CartItem>)
    requires TablesValid(db)
    ensures TablesValid(o.db) && o.db == db.(cartItems := o.db.cartItems)
  {
    if pk !in db.cartItems.rows then Outcome(Refuse(NotFound), db)
    else if !FormValid(db, form) then Outcome(Refuse(InvalidInput), db)
    else
      var quantity := if form.quantity.Some? then form.quantity.value else db.cartItems.rows[pk].quantity;
      var line := CartItem(form.cart.value, form.product.value, quantity);
      Outcome(Ok(200, line), db.(cartItems := Put(db.cartItems, pk, line)))
  }

  /**
   * An edit succeeds exactly for an existing line and an accepted form; it
   * rewrites that line alone, to the form's cart, product and quantity.
   */
  lemma EditItemEffect(db: Database, pk: nat, form: CartItemForm)
    requires TablesValid(db)
    ensures var o := EditItem(db, pk, form);
      && (pk !in db.cartItems.rows ==> o.reply == Refuse(NotFound))
      && (pk in db.cartItems.rows && !FormValid(db, form) ==> o.reply == Refuse(InvalidInput))
      && (pk in db.cartItems.rows && (form.cart.None? || form.product.None?) ==> o.reply == Refuse(InvalidInput))
      && (o.reply.Ok? <==> pk in db.cartItems.rows && FormValid(db, form))
      && (o.reply.Fail? ==> o.db == db)
      && (o.reply.Ok? ==>
            && o.reply.code == 200
            && Get(o.db.cartItems, pk) == Some(o.reply.value)
            && Some(o.reply.value.cart) == form.cart && Some(o.reply.value.product) == form.product
            && (form.quantity.Some? ==> o.reply.value.quantity == form.quantity.value)
            && (form.quantity.None? ==> o.reply.value.quantity == db.cartItems.rows[pk].quantity)
            && Keys(o.db.cartItems) == Keys(db.cartItems)
            && (forall k | k != pk :: Get(o.db.cartItems, k) == Get(db.cartItems, k)))
  {
  }

  /**
   * Editing does not look at the other lines of the cart: a cart holding one
   * line per product may end up with two lines for one product.
   */
  lemma EditMayDuplicateLines()
    ensures exists db: Database, pk: nat, form: CartItemForm ::
      && Consistent(db)
      && NoDuplicateLines(db.cartItems)
      && EditItem(db, pk, form).reply.Ok?
      && !NoDuplicateLines(EditItem(db, pk, form).db.cartItems)
  {
    var db := TwoLineCart();
    var form := CartItemForm(Some(1), Some(1), Some(3));
    var o := EditItem(db, 2, form);
    assert o.db.cartItems.rows[1] == CartItem(1, 1, 1) && o.db.cartItems.rows[2] == CartItem(1, 1, 3);
  }

  /** One account whose cart holds one line for each of two products. */
  function TwoLineCart(): (db: Database)
    ensures Consistent(db) && NoDuplicateLines(db.cartItems)
    ensures db.cartItems.rows == map[1 := CartItem(1, 1, 1), 2 := CartItem(1, 2, 1)]
    ensures 1 in db.carts.rows && 1 in db.products.rows
  {
    var items := Table(map[1 := CartItem(1, 1, 1), 2 := CartItem(1, 2, 1)], 3);
    var db := Database(Table(map[1 := User("a", "a@b.c", false)], 2), Empty(), Table(map[1 := Product(100), 2 := Product(200)], 3),
                       Table(map[1 := Cart(1)], 2), items, Empty(), Empty(), Empty(), Empty(), Empty(), Empty());
    assert !IsLine(Row(2, items.rows[2]), 1, 1);
    assert LinesRefer(db.cartItems, db.carts, db.products) && CartsRefer(db.carts, db.users);
    db
  }

  /** An edit keeps a consistent database consistent. */
  lemma EditItemConsistent(db: Database, pk: nat, form: CartItemForm)
    requires TablesValid(db)
    ensures Consistent(db) ==> Consistent(EditItem(db, pk, form).db)
  {
    var o := EditItem(db, pk, form);
    if o.reply.Ok? {
      PutLineConsistent(db, pk, o.reply.value);
    }
  }

  /** `delete_cart_item_view`: any existing line (404 otherwise) is deleted. */
  function DeleteItem(db: Database, pk: nat): (o: Outcome<()>)
    requires TablesValid(db)
    ensures TablesValid(o.db) && o.db == db.(cartItems := o.db.cartItems)
  {
    if pk !in db.cartItems.rows then Outcome(Refuse(NotFound), db)
    else Outcome(Ok(200, ()), db.(cartItems := Delete(db.cartItems, pk)))
  }

  /** A delete answers 200 exactly for an existing line and removes that line alone. */
  lemma DeleteItemEffect(db: Database, pk: nat)
    requires TablesValid(db)
    ensures var o := DeleteItem(db, pk);
      && (o.reply.Ok? <==> pk in db.cartItems.rows)
      && (o.reply.Ok? ==> o.reply.code == 200)
      && (o.reply.Fail? ==> o.reply == Refuse(NotFound) && o.db == db)
      && Keys(o.db.cartItems) == Keys(db.cartItems) - {pk}
      && (forall k | k != pk :: Get(o.db.cartItems, k) == Get(db.cartItems, k))
  {
  }

  /** A delete keeps a consistent database consistent. */
  lemma DeleteItemConsistent(db: Database, pk: nat)
    requires TablesValid(db)
    ensures Consistent(db) ==> Consistent(DeleteItem(db, pk).db)
  {
    if pk in db.cartItems.rows {
      DeleteLineConsistent(db, pk);
    }
  }

  /** `clear_cart_items_view`: the requester's cart, created when missing, loses all its lines. */
  function ClearItems(db: Database, user: nat): (o: Outcome<()>)
    requires TablesValid(db)
    ensures TablesValid(o.db) && o.db == db.(carts := o.db.carts, cartItems := o.db.cartItems)
  {
    var carts := WithCart(db.carts, user);
    var cart := CartOf(carts, user).value;
    Outcome(Ok(204, ()), db.(carts := carts, cartItems := DropCartLines(db.cartItems, cart)))
  }

  /** Clearing answers 204 and leaves the requester's cart without lines and every other cart's lines as they were. */
  lemma ClearItemsEmpties(db: Database, user: nat)
    requires TablesValid(db)
    ensures var o := ClearItems(db, user);
      var cart := CartOf(o.db.carts, user).value;
      && o.reply == Ok(204, ())
      && CartOf(o.db.carts, user).Some?
      && LinesOf(o.db.cartItems, cart) == []
      && (forall k | k in db.cartItems.rows && db.cartItems.rows[k].cart != cart ::
            k in o.db.cartItems.rows && o.db.cartItems.rows[k] == db.cartItems.rows[k])
  {
  }

  /** Clearing keeps a consistent database consistent. */
  lemma ClearItemsConsistent(db: Database, user: nat)
    requires TablesValid(db) && user in Keys(db.users)
    ensures Consistent(db) ==> Consistent(ClearItems(db, user).db)
  {
    WithCartConsistent(db, user);
    var db1 := db.(carts := WithCart(db.carts, user));
    var cart := CartOf(db1.carts, user).value;
    DeleteLinesConsistent(db1, (row: Row<CartItem>) => row.val.cart == cart);
    assert ClearItems(db, user).db == db1.(cartItems := DropCartLines(db.cartItems, cart));
  }
}
