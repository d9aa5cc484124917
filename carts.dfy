/**
 * The cart tables: which cart is a user's, which lines a cart holds, and the
 * line that `get_or_create(cart=..., product=...)` looks for.
 */
module Carts {
  import opened Tables
  import opened Models

  function CartIn(rows: seq<Row<Cart>>, user: nat): (r: Option<nat>)
    ensures r.Some? ==> Row(r.value, Cart(user)) in rows
    ensures r.None? ==> forall row | row in rows :: row.val.user != user
  {
    if rows == [] then None
    else if rows[0].val.user == user then Some(rows[0].id)
    else CartIn(rows[1..], user)
  }

  /** The key of the user's cart, if they have one. */
  function CartOf(carts: Table<Cart>, user: nat): (r: Option<nat>)
    requires Valid(carts)
    ensures r.Some? ==> r.value in carts.rows && carts.rows[r.value] == Cart(user)
    ensures r.None? ==> forall k | k in carts.rows :: carts.rows[k].user != user
  {
    assert forall k | k in carts.rows :: Row(k, carts.rows[k]) in Rows(carts);
    CartIn(Rows(carts), user)
  }

  /** With one cart per user, the cart a row names for its user is the one CartOf finds. */
  lemma CartOfUnique(carts: Table<Cart>, k: nat)
    requires Valid(carts) && OneCartPerUser(carts) && k in carts.rows
    ensures CartOf(carts, carts.rows[k].user) == Some(k)
  {
  }

  /** `Cart.objects.get_or_create(user=user)`: the cart table afterwards. */
  function WithCart(carts: Table<Cart>, user: nat): (t: Table<Cart>)
    requires Valid(carts)
    ensures Valid(t) && Keys(carts) <= Keys(t)
    ensures CartOf(t, user).Some?
    ensures CartOf(carts, user).Some? ==> t == carts
    ensures CartOf(carts, user).None? ==> t == Insert(carts, Cart(user)) && CartOf(t, user) == Some(carts.next)
    ensures OneCartPerUser(carts) ==> OneCartPerUser(t)
  {
    if CartOf(carts, user).Some? then carts
    else
      var t := Insert(carts, Cart(user));
      assert t.rows[carts.next] == Cart(user);
      t
  }

  /** The lines of one cart, in key order. */
  function LinesOf(items: Table<CartItem>, cart: nat): (lines: seq<Row<CartItem>>)
    requires Valid(items)
    ensures Ascending(lines)
    ensures forall row :: row in lines <==> Holds(items, row) && row.val.cart == cart
    ensures lines == [] <==> forall k | k in items.rows :: items.rows[k].cart != cart
  {
    QueryNone(items, (row: Row<CartItem>) => row.val.cart == cart);
    Query(items, (row: Row<CartItem>) => row.val.cart == cart)
  }

  /** Whether a line is in a cart that belongs to `user`. */
  predicate InCartOf(carts: Table<Cart>, user: nat, row: Row<CartItem>)
  {
    row.val.cart in carts.rows && carts.rows[row.val.cart].user == user
  }

  /** The join `CartItem.objects.filter(cart__user=user)`: every line in a cart of the user. */
  function LinesOfUser(carts: Table<Cart>, items: Table<CartItem>, user: nat): (lines: seq<Row<CartItem>>)
    requires Valid(items)
    ensures Ascending(lines)
    ensures forall row :: row in lines <==> Holds(items, row) && InCartOf(carts, user, row)
    ensures lines == [] <==> forall k | k in items.rows :: !InCartOf(carts, user, Row(k, items.rows[k]))
  {
    QueryNone(items, (row: Row<CartItem>) => InCartOf(carts, user, row));
    Query(items, (row: Row<CartItem>) => InCartOf(carts, user, row))
  }

  /** `CartItem.objects.filter(cart__user=user).delete()`. */
  function DropUserLines(carts: Table<Cart>, items: Table<CartItem>, user: nat): (t: Table<CartItem>)
    requires Valid(items)
    ensures Valid(t) && t.next == items.next
    ensures forall k :: k in t.rows <==> k in items.rows && !InCartOf(carts, user, Row(k, items.rows[k]))
    ensures forall k | k in t.rows :: t.rows[k] == items.rows[k]
  {
    DeleteWhere(items, (row: Row<CartItem>) => InCartOf(carts, user, row))
  }

  /** `CartItem.objects.filter(cart=cart).delete()`. */
  function DropCartLines(items: Table<CartItem>, cart: nat): (t: Table<CartItem>)
    requires Valid(items)
    ensures Valid(t) && t.next == items.next
    ensures forall k :: k in t.rows <==> k in items.rows && items.rows[k].cart != cart
    ensures forall k | k in t.rows :: t.rows[k] == items.rows[k]
  {
    DeleteWhere(items, (row: Row<CartItem>) => row.val.cart == cart)
  }

  /** With one cart per user, the lines joined through the user are exactly the lines of their cart. */
  lemma UserLinesAreCartLines(carts: Table<Cart>, items: Table<CartItem>, user: nat, cart: nat)
    requires Valid(items) && OneCartPerUser(carts)
    requires cart in carts.rows && carts.rows[cart].user == user
    ensures LinesOfUser(carts, items, user) == LinesOf(items, cart)
  {
    SameRows(LinesOfUser(carts, items, user), LinesOf(items, cart));
  }

  predicate IsLine(row: Row<CartItem>, cart: nat, product: nat)
  {
    row.val.cart == cart && row.val.product == product
  }

  /** The lines `CartItem.objects.get_or_create(cart=cart, product=product)` matches. */
  function Matching(items: Table<CartItem>, cart: nat, product: nat): (lines: seq<Row<CartItem>>)
    requires Valid(items)
    ensures forall row :: row in lines <==> Holds(items, row) && IsLine(row, cart, product)
    ensures lines == [] <==> forall k | k in items.rows :: !IsLine(Row(k, items.rows[k]), cart, product)
  {
    QueryNone(items, (row: Row<CartItem>) => IsLine(row, cart, product));
    Query(items, (row: Row<CartItem>) => IsLine(row, cart, product))
  }

  /** How many units of a product the given lines hold together. */
  function Units(lines: seq<Row<CartItem>>): nat
  {
    if lines == [] then 0 else lines[0].val.quantity + Units(lines[1..])
  }

  lemma UnitsOfOne(row: Row<CartItem>)
    ensures Units([row]) == row.val.quantity
  {
    assert [row][1..] == [];
  }

  /** No cart holds two lines for the same product. */
  ghost predicate NoDuplicateLines(items: Table<CartItem>)
  {
    forall a, b | a in items.rows && b in items.rows && a != b ::
      !IsLine(Row(b, items.rows[b]), items.rows[a].cart, items.rows[a].product)
  }

  /** Every line other than the (cart, product) ones is in `after` exactly when it was in `before`. */
  ghost predicate OtherLinesUnchanged(before: Table<CartItem>, after: Table<CartItem>, cart: nat, product: nat)
  {
    forall row | !IsLine(row, cart, product) :: Holds(after, row) <==> Holds(before, row)
  }

  /** Saving the one matching line with a new quantity leaves it the only match. */
  lemma PutOnlyLine(items: Table<CartItem>, id: nat, cart: nat, product: nat, q: nat)
    requires Valid(items) && id in items.rows && IsLine(Row(id, items.rows[id]), cart, product)
    requires forall k | k in items.rows && IsLine(Row(k, items.rows[k]), cart, product) :: k == id
    ensures var after := Put(items, id, CartItem(cart, product, q));
      && Matching(after, cart, product) == [Row(id, CartItem(cart, product, q))]
      && OtherLinesUnchanged(items, after, cart, product)
  {
    var after := Put(items, id, CartItem(cart, product, q));
    QuerySingleton(after, (row: Row<CartItem>) => IsLine(row, cart, product), id);
  }

  /** A cart that holds no line for a product may get one without duplicating lines. */
  lemma AddKeepsLinesUnique(items: Table<CartItem>, cart: nat, product: nat, q: nat)
    requires Valid(items) && Matching(items, cart, product) == []
    ensures NoDuplicateLines(items) ==> NoDuplicateLines(Insert(items, CartItem(cart, product, q)))
  {
    QueryNone(items, (row: Row<CartItem>) => IsLine(row, cart, product));
  }

  /** Rewriting the quantity of the one matching line keeps lines unique. */
  lemma UpdateKeepsLinesUnique(items: Table<CartItem>, id: nat, cart: nat, product: nat, q: nat)
    requires Valid(items) && id in items.rows
    requires forall k | k in items.rows && IsLine(Row(k, items.rows[k]), cart, product) :: k == id
    ensures NoDuplicateLines(items) ==> NoDuplicateLines(Put(items, id, CartItem(cart, product, q)))
  {
  }

  // ---------------------------------------------------------------------------
  // add_cart_item

  /** The cart serializer's view of a cart: its key and its lines. */
  datatype CartView = CartView(cart: nat, lines: seq<Row<CartItem>>)

  /** The reply of a cart view and the cart tables it leaves behind. */
  datatype CartWrite = CartWrite(reply: Reply<CartView>, carts: Table<Cart>, items: Table<CartItem>)

  /** How writing one (cart, product) line ended, and the line table it leaves behind. */
  datatype LineWrite = LineWrite(failure: Option<Failure>, items: Table<CartItem>)

  /**
   * Saving the line `id` after `int(quantity)` is added to `base` units, or the
   * conversion or the column's non-negative constraint refusing it.
   */
  function SaveLine(items: Table<CartItem>, id: nat, cart: nat, product: nat, base: nat, quantity: Option<int>): (w: LineWrite)
    requires Valid(items) && id in items.rows
    ensures Valid(w.items)
  {
    if quantity.None? then LineWrite(Some(ConversionError), items)
    else if base + quantity.value < 0 then LineWrite(Some(IntegrityError), items)
    else LineWrite(None, Put(items, id, CartItem(cart, product, base + quantity.value)))
  }

  /**
   * The line part of `add_cart_item_view` for a known cart and product:
   * `get_or_create` the (cart, product) line with the default quantity 1, then
   * add `int(quantity)` to an existing line, or set a new line to it (its
   * default units are not added), and save.
   */
  function AddLine(items: Table<CartItem>, cart: nat, product: nat, quantity: Option<int>): (w: LineWrite)
    requires Valid(items)
    ensures Valid(w.items)
  {
    var found := Matching(items, cart, product);
    if |found| > 1 then LineWrite(Some(MultipleObjectsReturned), items)
    else if |found| == 1 then
      assert found[0] in found;
      SaveLine(items, found[0].id, cart, product, found[0].val.quantity, quantity)
    else SaveLine(Insert(items, CartItem(cart, product, 1)), items.next, cart, product, 0, quantity)
  }

  /**
   * `add_cart_item_view` on the cart tables: find the product (404), get or
   * create the user's cart, then write the line.  Rows written before a
   * failure stay written.
   */
  function AddItem(carts: Table<Cart>, items: Table<CartItem>, products: set<nat>, user: nat,
                   productId: Option<nat>, quantity: Option<int>): (w: CartWrite)
    requires Valid(carts) && Valid(items)
    ensures Valid(w.carts) && Valid(w.items)
  {
    if productId.None? || productId.value !in products then CartWrite(Refuse(NotFound), carts, items)
    else
      var carts' := WithCart(carts, user);
      var cart := CartOf(carts', user).value;
      var line := AddLine(items, cart, productId.value, quantity);
      if line.failure.Some? then CartWrite(Refuse(line.failure.value), carts', line.items)
      else CartWrite(Ok(200, CartView(cart, LinesOf(line.items, cart))), carts', line.items)
  }

  /** The only line a one-element match lists is the only matching key. */
  lemma OnlyLine(items: Table<CartItem>, cart: nat, product: nat, line: Row<CartItem>)
    requires Valid(items) && Matching(items, cart, product) == [line]
    ensures line.id in items.rows && items.rows[line.id] == line.val && IsLine(line, cart, product)
    ensures forall k | k in items.rows && IsLine(Row(k, items.rows[k]), cart, product) :: k == line.id
  {
    var found := Matching(items, cart, product);
    assert line in found;
    forall k | k in items.rows && IsLine(Row(k, items.rows[k]), cart, product) ensures k == line.id {
      assert Row(k, items.rows[k]) in found;
    }
  }

  /**
   * When writing the line refuses: two lines for the pair (which `get_or_create`
   * cannot choose between), a missing quantity, and a quantity that would
   * leave the line negative.  A line that did not exist before is left
   * holding the default quantity 1; an existing one is left as it was.
   */
  lemma AddLineRefusals(items: Table<CartItem>, cart: nat, product: nat, quantity: Option<int>)
    requires Valid(items)
    ensures var found := Matching(items, cart, product);
            var w := AddLine(items, cart, product, quantity);
      && (|found| > 1 ==> w == LineWrite(Some(MultipleObjectsReturned), items))
      && (|found| <= 1 && quantity.None? ==> w.failure == Some(ConversionError))
      && (|found| <= 1 && quantity.Some? ==>
            (w.failure.None? <==> Units(found) + quantity.value >= 0) &&
            (w.failure.Some? ==> w.failure == Some(IntegrityError)))
      && (|found| == 1 && w.failure.Some? ==> w.items == items)
      && (|found| == 0 && w.failure.Some? ==> w.items == Insert(items, CartItem(cart, product, 1)))
  {
  }

  /** Saving the one matching line with `q` units. */
  lemma MergeExisting(items: Table<CartItem>, cart: nat, product: nat, line: Row<CartItem>, q: nat)
    requires Valid(items) && Matching(items, cart, product) == [line]
    ensures line.id in items.rows
    ensures var after := Put(items, line.id, CartItem(cart, product, q));
      && Matching(after, cart, product) == [Row(line.id, CartItem(cart, product, q))]
      && OtherLinesUnchanged(items, after, cart, product)
      && (NoDuplicateLines(items) ==> NoDuplicateLines(after))
  {
    OnlyLine(items, cart, product, line);
    PutOnlyLine(items, line.id, cart, product, q);
    UpdateKeepsLinesUnique(items, line.id, cart, product, q);
  }

  /** Creating the line with the default quantity when the cart has none for the product. */
  lemma InsertNewLine(items: Table<CartItem>, cart: nat, product: nat)
    requires Valid(items) && Matching(items, cart, product) == []
    ensures var created := Insert(items, CartItem(cart, product, 1));
      && Matching(created, cart, product) == [Row(items.next, CartItem(cart, product, 1))]
      && OtherLinesUnchanged(items, created, cart, product)
      && (NoDuplicateLines(items) ==> NoDuplicateLines(created))
  {
    var created := Insert(items, CartItem(cart, product, 1));
    AddKeepsLinesUnique(items, cart, product, 1);
    forall k | k in created.rows && IsLine(Row(k, created.rows[k]), cart, product) ensures k == items.next {
      assert k == items.next || Get(created, k) == Get(items, k);
    }
    QuerySingleton(created, (row: Row<CartItem>) => IsLine(row, cart, product), items.next);
    forall row | !IsLine(row, cart, product) ensures Holds(created, row) <==> Holds(items, row) {
      if row.id == items.next {
        assert row.id !in items.rows;
      }
    }
  }

  /** Creating the line with the default quantity and then saving it with `q` units. */
  lemma MergeNew(items: Table<CartItem>, cart: nat, product: nat, q: nat)
    requires Valid(items) && Matching(items, cart, product) == []
    ensures var after := Put(Insert(items, CartItem(cart, product, 1)), items.next, CartItem(cart, product, q));
      && Matching(after, cart, product) == [Row(items.next, CartItem(cart, product, q))]
      && OtherLinesUnchanged(items, after, cart, product)
      && (NoDuplicateLines(items) ==> NoDuplicateLines(after))
  {
    var created := Insert(items, CartItem(cart, product, 1));
    InsertNewLine(items, cart, product);
    MergeExisting(created, cart, product, Row(items.next, CartItem(cart, product, 1)), q);
  }

  /**
   * A successful write leaves exactly one line for the pair, holding `quantity`
   * more units than the cart held before, and no other line changes.
   */
  lemma AddLineMerges(items: Table<CartItem>, cart: nat, product: nat, quantity: Option<int>)
    requires Valid(items)
    ensures var w := AddLine(items, cart, product, quantity);
      w.failure.None? ==>
        && quantity.Some?
        && |Matching(w.items, cart, product)| == 1
        && Units(Matching(w.items, cart, product)) == Units(Matching(items, cart, product)) + quantity.value
        && OtherLinesUnchanged(items, w.items, cart, product)
  {
    var found := Matching(items, cart, product);
    var w := AddLine(items, cart, product, quantity);
    if w.failure.None? && |found| == 1 {
      var line := found[0];
      assert found == [line];
      var q := line.val.quantity + quantity.value;
      MergeExisting(items, cart, product, line, q);
      UnitsOfOne(line);
      UnitsOfOne(Row(line.id, CartItem(cart, product, q)));
    } else if w.failure.None? && |found| == 0 {
      MergeNew(items, cart, product, quantity.value);
      UnitsOfOne(Row(items.next, CartItem(cart, product, quantity.value)));
    }
  }

  /** Writing the line never makes a second line for a (cart, product) pair. */
  lemma AddLineKeepsLinesUnique(items: Table<CartItem>, cart: nat, product: nat, quantity: Option<int>)
    requires Valid(items)
    ensures NoDuplicateLines(items) ==> NoDuplicateLines(AddLine(items, cart, product, quantity).items)
  {
    var found := Matching(items, cart, product);
    var w := AddLine(items, cart, product, quantity);
    if |found| == 1 && w.failure.None? {
      assert found == [found[0]];
      MergeExisting(items, cart, product, found[0], found[0].val.quantity + quantity.value);
    } else if |found| == 0 {
      InsertNewLine(items, cart, product);
      if w.failure.None? {
        MergeNew(items, cart, product, quantity.value);
      }
    }
  }

  /**
   * `add_cart_item_view`: an unknown product is refused before any cart or
   * line is written; a known one gives the user a cart (the one they had, if
   * any, so never a second one), and a successful add leaves exactly one line
   * for the product in that cart holding `quantity` more units than before,
   * changes no other line, and answers 200 with the cart's lines.
   */
  lemma AddItemEffect(carts: Table<Cart>, items: Table<CartItem>, products: set<nat>, user: nat,
                      productId: Option<nat>, quantity: Option<int>)
    requires Valid(carts) && Valid(items)
    ensures var w := AddItem(carts, items, products, user, productId, quantity);
      && (productId.None? || productId.value !in products ==> w == CartWrite(Refuse(NotFound), carts, items))
      && (OneCartPerUser(carts) ==> OneCartPerUser(w.carts))
      && (NoDuplicateLines(items) ==> NoDuplicateLines(w.items))
      && (productId.Some? && productId.value in products ==>
            var cart := CartOf(w.carts, user).value;
            var product := productId.value;
            && CartOf(w.carts, user).Some?
            && (CartOf(carts, user).Some? ==> w.carts == carts && cart == CartOf(carts, user).value)
            && (w.reply.Ok? ==>
                  && w.reply.code == 200 && quantity.Some?
                  && w.reply.value == CartView(cart, LinesOf(w.items, cart))
                  && |Matching(w.items, cart, product)| == 1
                  && Units(Matching(w.items, cart, product)) == Units(Matching(items, cart, product)) + quantity.value
                  && OtherLinesUnchanged(items, w.items, cart, product)))
  {
    if productId.Some? && productId.value in products {
      var cart := CartOf(WithCart(carts, user), user).value;
      AddLineMerges(items, cart, productId.value, quantity);
      AddLineKeepsLinesUnique(items, cart, productId.value, quantity);
    }
  }
}
