/**
 * The arithmetic of checkout: the order total over the cart lines, and the
 * order items made from those lines.
 */
module Orders {
  import opened Tables
  import opened Models

  /** Whether order `id` exists and belongs to `user`: `get_object_or_404(Order, id=id, user=user)` finds it. */
  predicate OwnedBy(orders: Table<Order>, id: nat, user: nat)
  {
    id in orders.rows && orders.rows[id].user == user
  }

  /** The unit price of a product in cents, or 0 for a key that names no product. */
  function PriceOf(products: Table<Product>, id: nat): int
  {
    match Get(products, id)
    case Some(p) => p.price
    case None => 0
  }

  /** Σ price × quantity over the lines, the total checkout charges. */
  function LinesTotal(products: Table<Product>, lines: seq<Row<CartItem>>): int
  {
    if lines == [] then 0
    else
      var last := lines[|lines| - 1].val;
      LinesTotal(products, lines[..|lines| - 1]) + PriceOf(products, last.product) * last.quantity
  }

  /** The accumulation loop of checkout over the user's cart lines. */
  method CartTotal(products: Table<Product>, lines: seq<Row<CartItem>>) returns (total: int)
    ensures total == LinesTotal(products, lines)
  {
    total := 0;
    var i := 0;
    while i < |lines|
      invariant 0 <= i <= |lines|
      invariant total == LinesTotal(products, lines[..i])
    {
      assert lines[..i + 1][..i] == lines[..i];
      total := total + PriceOf(products, lines[i].val.product) * lines[i].val.quantity;
      i := i + 1;
    }
    assert lines[..i] == lines;
  }

  /** The order item checkout creates for one cart line. */
  function ItemFor(order: nat, products: Table<Product>, line: CartItem): OrderItem
  {
    OrderItem(order, line.product, line.quantity, PriceOf(products, line.product))
  }

  /** The order items for the lines, one per line and in the same order. */
  function ItemsFor(order: nat, products: Table<Product>, lines: seq<Row<CartItem>>): (items: seq<OrderItem>)
    ensures |items| == |lines|
    ensures forall j | 0 <= j < |lines| ::
      && items[j].order == order
      && items[j].product == lines[j].val.product
      && items[j].quantity == lines[j].val.quantity
      && items[j].price == PriceOf(products, lines[j].val.product)
  {
    if lines == [] then []
    else ItemsFor(order, products, lines[..|lines| - 1]) + [ItemFor(order, products, lines[|lines| - 1].val)]
  }

  /**
   * Creating the items for the lines one after another stores, under the
   * j-th new key, the j-th line's product and quantity at the product's price.
   */
  lemma ItemsStored(t: Table<OrderItem>, order: nat, products: Table<Product>, lines: seq<Row<CartItem>>)
    requires Valid(t)
    ensures var after := InsertAll(t, ItemsFor(order, products, lines));
      forall j | 0 <= j < |lines| ::
        Get(after, t.next + j) == Some(OrderItem(order, lines[j].val.product, lines[j].val.quantity,
                                                 PriceOf(products, lines[j].val.product)))
  {
    var items := ItemsFor(order, products, lines);
    var after := InsertAll(t, items);
    forall j | 0 <= j < |lines|
      ensures Get(after, t.next + j) == Some(OrderItem(order, lines[j].val.product, lines[j].val.quantity,
                                                       PriceOf(products, lines[j].val.product)))
    {
      assert Get(after, t.next + j) == Some(items[j]);
    }
  }

  /** Σ price × quantity over order items. */
  function ItemsTotal(items: seq<OrderItem>): int
  {
    if items == [] then 0
    else ItemsTotal(items[..|items| - 1]) + items[|items| - 1].price * items[|items| - 1].quantity
  }

  /** The items checkout creates add up to the total it stores on the order. */
  lemma {:induction false} ItemsTotalIsLinesTotal(order: nat, products: Table<Product>, lines: seq<Row<CartItem>>)
    ensures ItemsTotal(ItemsFor(order, products, lines)) == LinesTotal(products, lines)
  {
    if lines != [] {
      var items := ItemsFor(order, products, lines);
      var front := lines[..|lines| - 1];
      ItemsTotalIsLinesTotal(order, products, front);
      assert items[..|items| - 1] == ItemsFor(order, products, front);
    }
  }
}
