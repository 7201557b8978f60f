/** The checkout handler: turn the stored cart into an order, priced against
    the catalog as it is now, then empty the cart. */
module CheckoutRoute {
  import opened Totals
  import opened Replies
  import opened CartSchema
  import opened OrderSchema
  import opened Store

  const FieldsRequiredMessage: string := "Customer name and email are required"
  const CartEmptyMessage: string := "Cart is empty"

  /** The body of the 201 reply. */
  datatype Receipt = Receipt(
    orderId: nat,
    customerName: string,
    customerEmail: string,
    items: seq<OrderLine>,
    total: int,
    timestamp: Timestamp)

  /** One order line for one cart line: product id and quantity from the cart
      line; name, price and image from the catalog when the product is still
      there, and otherwise the copies the cart line kept. */
  function Resolve(catalog: map<ProductId, Product>, it: Item): OrderLine {
    if it.productId in catalog then
      var p := catalog[it.productId];
      OrderLine(it.productId, p.name, p.price, it.quantity, p.image)
    else
      OrderLine(it.productId, it.name, it.price, it.quantity, it.image)
  }

  /** `cart.items.map(...)`: one order line per cart line, in the cart's order. */
  function ResolveAll(catalog: map<ProductId, Product>, items: seq<Item>): (lines: seq<OrderLine>)
    ensures |lines| == |items|
    ensures forall i :: 0 <= i < |items| ==> lines[i] == Resolve(catalog, items[i])
  {
    if |items| == 0 then []
    else [Resolve(catalog, items[0])] + ResolveAll(catalog, items[1..])
  }

  /** Each order line takes the product id and quantity from its cart line,
      and name, price and image from the catalog when the product is there and
      from the cart line's copies when it is not. */
  lemma ResolvedLines(catalog: map<ProductId, Product>, items: seq<Item>)
    ensures var lines := ResolveAll(catalog, items);
      && |lines| == |items|
      && (forall i :: 0 <= i < |items| ==>
            lines[i].productId == items[i].productId && lines[i].quantity == items[i].quantity)
      && (forall i :: 0 <= i < |items| && items[i].productId in catalog ==>
            var p := catalog[items[i].productId];
            lines[i].name == p.name && lines[i].price == p.price && lines[i].image == p.image)
      && (forall i :: 0 <= i < |items| && items[i].productId !in catalog ==>
            lines[i].name == items[i].name && lines[i].price == items[i].price
            && lines[i].image == items[i].image)
  {
  }

  /** When no product in the cart changed price (or it left the catalog, so
      the cart's copy is used), the order total is the cart's total. */
  lemma {:induction false} ResolvedTotalMatchesCart(catalog: map<ProductId, Product>, items: seq<Item>)
    requires forall i :: 0 <= i < |items| && items[i].productId in catalog ==>
      catalog[items[i].productId].price == items[i].price
    ensures OrderTotal(ResolveAll(catalog, items)) == Total(items)
  {
    if |items| > 0 {
      var n := |items| - 1;
      var lines := ResolveAll(catalog, items);
      ResolvedTotalMatchesCart(catalog, items[..n]);
      ResolvedPrefix(catalog, items, n);
      assert lines[..n] == ResolveAll(catalog, items[..n]);
      assert LineAmount(lines[n]) == ItemAmount(items[n]);
    }
  }

  /** Resolving is done line by line: resolving a prefix gives a prefix. */
  lemma {:induction false} ResolvedPrefix(catalog: map<ProductId, Product>, items: seq<Item>, n: nat)
    requires n <= |items|
    ensures ResolveAll(catalog, items)[..n] == ResolveAll(catalog, items[..n])
  {
    var lines := ResolveAll(catalog, items);
    var short := ResolveAll(catalog, items[..n]);
    forall i | 0 <= i < n ensures lines[i] == short[i] {
      assert items[..n][i] == items[i];
    }
  }

  /** The freshness policy: a product whose price rose from 10.00 to 12.00
      after it was added is charged 12.00 at checkout. */
  lemma CheckoutUsesCurrentPrice()
    ensures var key := "64b7f0c2a1d3e4f5a6b7c8d9";
      var items := [Item(0, key, "Mug", 1000, 2, "mug.png")];
      var catalog := map[key := Product("Mug", 1200, "mug.png")];
      Total(items) == 2000 && OrderTotal(ResolveAll(catalog, items)) == 2400
  {
    var key := "64b7f0c2a1d3e4f5a6b7c8d9";
    var items := [Item(0, key, "Mug", 1000, 2, "mug.png")];
    var catalog := map[key := Product("Mug", 1200, "mug.png")];
    var lines := ResolveAll(catalog, items);
    assert lines == [OrderLine(key, "Mug", 1200, 2, "mug.png")];
    assert Sum(lines, LineAmount) == Sum(lines[..0], LineAmount) + LineAmount(lines[0]);
    assert Sum(items, ItemAmount) == Sum(items[..0], ItemAmount) + ItemAmount(items[0]);
  }

  /** A product deleted from the catalog is charged at the price the cart kept. */
  lemma CheckoutFallsBackToCartCopy()
    ensures var key := "64b7f0c2a1d3e4f5a6b7c8d9";
      var items := [Item(0, key, "Mug", 1000, 2, "mug.png")];
      OrderTotal(ResolveAll(map[], items)) == 2000
  {
    var key := "64b7f0c2a1d3e4f5a6b7c8d9";
    var items := [Item(0, key, "Mug", 1000, 2, "mug.png")];
    var lines := ResolveAll(map[], items);
    assert lines == [OrderLine(key, "Mug", 1000, 2, "mug.png")];
    assert Sum(lines, LineAmount) == Sum(lines[..0], LineAmount) + LineAmount(lines[0]);
  }

  /** POST / with `{ customerName, customerEmail }` (an absent field arrives
      as "", falsy like a missing one). `now` is the clock's reading; the two
      flags are whether the store accepts the order write and the cart write. */
  method Checkout(db: Database, customerName: string, customerEmail: string, now: Timestamp,
                  orderWriteOk: bool, cartWriteOk: bool) returns (r: Result<Receipt>)
    requires db.Valid()
    modifies db`cart, db`orders, db`nextId
    ensures db.Valid()
    ensures customerName == "" || customerEmail == "" ==>
      && r == Err(BadRequest(FieldsRequiredMessage))
      && db.cart == old(db.cart) && db.orders == old(db.orders) && db.nextId == old(db.nextId)
    ensures customerName != "" && customerEmail != "" && ItemsOf(old(db.cart)) == [] ==>
      && r == Err(BadRequest(CartEmptyMessage))
      && db.cart == old(db.cart) && db.orders == old(db.orders) && db.nextId == old(db.nextId)
    ensures customerName != "" && customerEmail != "" && ItemsOf(old(db.cart)) != [] ==>
      var lines := ResolveAll(old(db.catalog), ItemsOf(old(db.cart)));
      var order := Order(old(db.nextId), DefaultUserId, lines, OrderTotal(lines),
                         customerName, customerEmail, now);
      && db.nextId == old(db.nextId) + 1
      && (!orderWriteOk ==>
            r == Err(ServerError) && db.orders == old(db.orders) && db.cart == old(db.cart))
      && (orderWriteOk && !cartWriteOk ==>
            r == Err(ServerError) && db.orders == old(db.orders) + [order] && db.cart == old(db.cart))
      && (orderWriteOk && cartWriteOk ==>
            && r == Ok(Receipt(order.id, customerName, customerEmail, lines, OrderTotal(lines), now))
            && db.orders == old(db.orders) + [order]
            && db.cart == Some(CartDoc(DefaultUserId, [], 0)))
  {
    if customerName == "" || customerEmail == "" {
      return Err(BadRequest(FieldsRequiredMessage));
    }
    var cart := db.FindCart();
    if cart == null || |cart.items| == 0 {
      return Err(BadRequest(CartEmptyMessage));
    }
    var orderItems := ResolveAll(db.catalog, cart.items);
    assert orderItems == ResolveAll(old(db.catalog), ItemsOf(old(db.cart)));
    var total := OrderTotal(orderItems);
    var orderId := db.FreshId();
    var order := Order(orderId, DefaultUserId, orderItems, total, customerName, customerEmail, now);
    var orderSaved := db.SaveOrder(order, orderWriteOk);
    if !orderSaved {
      return Err(ServerError);
    }
    cart.items := [];
    var cartSaved := db.SaveCart(cart, cartWriteOk);
    if !cartSaved {
      return Err(ServerError);
    }
    return Ok(Receipt(order.id, order.customerName, order.customerEmail, order.items, order.total, order.timestamp));
  }
}
