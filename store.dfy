/** The document store as the core sees it: a read-only product catalog, the
    one shopper's cart, the append-only list of orders, and the source of
    fresh ObjectIds. Reads always succeed; every write is handed its outcome
    (`writeOk`), since whether the database accepts it is outside the model. */
module Store {
  import opened Replies
  import opened ObjectIds
  import opened CartSchema
  import opened OrderSchema

  /** The catalog fields the core reads. */
  datatype Product = Product(name: string, price: Cents, image: string)

  /** What `Product.findById(text)` yields. */
  datatype Lookup =
    | Found(key: ProductId, product: Product)
    | Absent      // the text is an id, but no such product
    | Malformed   // the text does not cast to an id: the query throws

  function FindById(catalog: map<ProductId, Product>, text: string): (r: Lookup)
    ensures r.Malformed? <==> !IsObjectIdText(text)
    ensures r.Absent? <==> IsObjectIdText(text) && CanonicalId(text) !in catalog
    ensures r.Found? ==> r.key == CanonicalId(text) && r.key in catalog && r.product == catalog[r.key]
  {
    if !IsObjectIdText(text) then Malformed
    else
      var key := CanonicalId(text);
      if key in catalog then Found(key, catalog[key]) else Absent
  }

  /** The lookup sees only the id a text stands for: two spellings of one id
      that differ in the case of their hex letters find the same product, or
      both find none. */
  lemma FindByIdUpToCase(catalog: map<ProductId, Product>, a: string, b: string)
    requires IsObjectIdText(a) && IsObjectIdText(b) && SameUpToCase(a, b)
    ensures FindById(catalog, a) == FindById(catalog, b)
  {
    SameIdExactlyUpToCase(a, b);
  }

  /** Line `id`s are pairwise distinct. */
  predicate UniqueLineIds(items: seq<Item>) {
    forall i, j :: 0 <= i < j < |items| ==> items[i].id != items[j].id
  }

  /** At most one line per product. */
  predicate UniqueProducts(items: seq<Item>) {
    forall i, j :: 0 <= i < j < |items| ==> items[i].productId != items[j].productId
  }

  predicate IdsBelow(items: seq<Item>, bound: nat) {
    forall i :: 0 <= i < |items| ==> items[i].id < bound
  }

  /** What holds of every cart the store keeps. */
  predicate CartInvariant(doc: CartDoc, nextId: nat) {
    && doc.userId == DefaultUserId
    && ItemsValid(doc.items)
    && doc.total == Total(doc.items)
    && UniqueLineIds(doc.items)
    && UniqueProducts(doc.items)
    && IdsBelow(doc.items, nextId)
  }

  /** What holds of every order the store keeps. */
  predicate OrderInvariant(o: Order, nextId: nat) {
    o.id < nextId && o.total == OrderTotal(o.items) && OrderValid(o)
  }

  /** The lines of a stored cart; an absent cart has none. */
  function ItemsOf(c: Option<CartDoc>): seq<Item> {
    if c.Some? then c.value.items else []
  }

  class Database {
    var catalog: map<ProductId, Product>
    var cart: Option<CartDoc>
    var orders: seq<Order>
    var nextId: nat

    ghost predicate Valid()
      reads this
    {
      && (cart.Some? ==> CartInvariant(cart.value, nextId))
      && (forall k :: 0 <= k < |orders| ==> OrderInvariant(orders[k], nextId))
    }

    constructor (catalog: map<ProductId, Product>)
      ensures Valid()
      ensures this.catalog == catalog && cart == None && orders == [] && nextId == 0
    {
      this.catalog := catalog;
      cart := None;
      orders := [];
      nextId := 0;
    }

    /** A new ObjectId, distinct from every one handed out before. */
    method FreshId() returns (id: nat)
      requires Valid()
      modifies this`nextId
      ensures Valid()
      ensures id == old(nextId) && nextId == id + 1
    {
      id := nextId;
      nextId := nextId + 1;
    }

    /** `Cart.findOne({ userId: 'mock-user' })`: a fresh in-memory copy of the stored cart. */
    method FindCart() returns (c: Cart?)
      ensures cart.None? <==> c == null
      ensures c != null ==> fresh(c) && c.Doc() == cart.value
    {
      if cart.None? {
        c := null;
      } else {
        c := new Cart(cart.value.userId, cart.value.items, cart.value.total);
      }
    }

    /** `cart.save()`: validation and the pre-save hook, then the write.
        Callers only hand it carts whose lines keep the store's invariant
        apart from the schema rule, which the save itself checks. */
    method SaveCart(c: Cart, writeOk: bool) returns (saved: bool)
      requires Valid()
      requires c.userId == DefaultUserId
      requires UniqueLineIds(c.items) && UniqueProducts(c.items) && IdsBelow(c.items, nextId)
      modifies this`cart, c`total
      ensures Valid()
      ensures c.items == old(c.items) && c.userId == old(c.userId)
      ensures saved <==> writeOk && ItemsValid(c.items)
      ensures ItemsValid(c.items) ==> c.total == Total(c.items)
      ensures !ItemsValid(c.items) ==> c.total == old(c.total)
      ensures cart == if saved then Some(c.Doc()) else old(cart)
    {
      var valid := c.PreSave();
      saved := valid && writeOk;
      if saved {
        cart := Some(c.Doc());
      }
    }

    /** `order.save()`: validation, then the append-only write. */
    method SaveOrder(o: Order, writeOk: bool) returns (saved: bool)
      requires Valid()
      requires o.id < nextId && o.total == OrderTotal(o.items)
      modifies this`orders
      ensures Valid()
      ensures saved <==> writeOk && OrderValid(o)
      ensures orders == if saved then old(orders) + [o] else old(orders)
    {
      saved := writeOk && OrderValid(o);
      if saved {
        orders := orders + [o];
      }
    }
  }
}
