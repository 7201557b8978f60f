/** The cart's request handlers: read (creating the cart on first use), add a
    product, remove a line, and set a line's quantity. Each handler loads the
    stored cart into an in-memory document, changes its lines, saves it (which
    validates it and recomputes `total`) and answers with the lines and the
    fold of price times quantity over them. */
module CartRoutes {
  import opened Totals
  import opened ObjectIds
  import opened Replies
  import opened CartSchema
  import opened Store

  const InvalidAddMessage: string := "Invalid productId or quantity"
  const ProductNotFoundMessage: string := "Product not found"
  const CartNotFoundMessage: string := "Cart not found"
  const ItemNotFoundMessage: string := "Item not found in cart"
  const InvalidQuantityMessage: string := "Invalid quantity"

  /** The body of every successful cart reply: `{ items, total }`. */
  datatype CartView = CartView(items: seq<Item>, total: int)

  // ---------------------------------------------------------------------------
  // The list operations the handlers perform on `cart.items`
  // ---------------------------------------------------------------------------

  /** `items.findIndex(item => item.productId.toString() === text)`: the first
      line whose product id is `text`, or -1. */
  function FindByProduct(items: seq<Item>, text: string): (k: int)
    ensures -1 <= k < |items|
    ensures k >= 0 ==> items[k].productId == text
    ensures k >= 0 ==> forall j :: 0 <= j < k ==> items[j].productId != text
    ensures k == -1 <==> forall j :: 0 <= j < |items| ==> items[j].productId != text
  {
    if |items| == 0 then -1
    else if items[0].productId == text then 0
    else
      var k := FindByProduct(items[1..], text);
      if k == -1 then -1 else k + 1
  }

  /** Some line has `_id` equal to `id`. */
  predicate HasLine(items: seq<Item>, id: LineId) {
    exists i :: 0 <= i < |items| && items[i].id == id
  }

  /** `items.find(item => item._id.toString() === id)`, as an index: the first
      line with that `_id`, or -1. */
  function FindLine(items: seq<Item>, id: LineId): (k: int)
    ensures -1 <= k < |items|
    ensures k >= 0 ==> items[k].id == id
    ensures k >= 0 ==> forall j :: 0 <= j < k ==> items[j].id != id
    ensures k == -1 <==> !HasLine(items, id)
  {
    if |items| == 0 then -1
    else if items[0].id == id then 0
    else
      var k := FindLine(items[1..], id);
      assert forall j :: 1 <= j < |items| ==> items[j] == items[1..][j - 1];
      if k == -1 then -1 else k + 1
  }

  /** The line pushed for a product not yet in the cart: a copy of the
      product's name, price and image, with the quantity asked for. */
  function NewLine(id: LineId, key: ProductId, p: Product, quantity: int): Item {
    Item(id, key, p.name, p.price, quantity, p.image)
  }

  /** Merge-or-append, with the existing line looked up by `matchText`: add
      `line.quantity` to the first line whose product id is `matchText`, and
      otherwise push `line` at the end. */
  function MergeOrAppend(items: seq<Item>, matchText: string, line: Item): seq<Item> {
    var k := FindByProduct(items, matchText);
    if k >= 0 then items[k := items[k].(quantity := items[k].quantity + line.quantity)]
    else items + [line]
  }

  /** Adding `quantity` of product `p`, found under the id `key`, with `newId`
      as the `_id` a pushed line gets. Existing lines are matched against the
      product's own id (see Findings in the README for the text the handler
      compares instead). */
  function Add(items: seq<Item>, key: ProductId, p: Product, quantity: int, newId: LineId): seq<Item> {
    MergeOrAppend(items, key, NewLine(newId, key, p, quantity))
  }

  /** The handler as written: lines are matched against the request's text. */
  function AddAsWritten(items: seq<Item>, text: string, key: ProductId, p: Product, quantity: int, newId: LineId): seq<Item> {
    MergeOrAppend(items, text, NewLine(newId, key, p, quantity))
  }

  /** `items.filter(item => item._id.toString() !== id)`. */
  function Without(items: seq<Item>, id: LineId): (r: seq<Item>)
    ensures |r| <= |items|
    ensures forall j :: 0 <= j < |r| ==> r[j].id != id
  {
    if |items| == 0 then []
    else (if items[0].id == id then [] else [items[0]]) + Without(items[1..], id)
  }

  /** `item.quantity = quantity` on the line `find` returns. */
  function SetQuantity(items: seq<Item>, id: LineId, quantity: int): seq<Item> {
    var k := FindLine(items, id);
    if k >= 0 then items[k := items[k].(quantity := quantity)] else items
  }

  // ---------------------------------------------------------------------------
  // Add: merge or append
  // ---------------------------------------------------------------------------

  /** When the product already has a line, that line's quantity grows by
      exactly `quantity`; its copied name, price and image stay as they were,
      and the number of lines and every other line are unchanged. */
  lemma AddMerges(items: seq<Item>, key: ProductId, p: Product, quantity: int, newId: LineId, k: nat)
    requires k < |items| && items[k].productId == key
    requires UniqueProducts(items)
    ensures var r := Add(items, key, p, quantity, newId);
      && |r| == |items|
      && r[k] == items[k].(quantity := items[k].quantity + quantity)
      && forall j :: 0 <= j < |items| && j != k ==> r[j] == items[j]
  {
    assert FindByProduct(items, key) == k;
  }

  /** When the product has no line yet, exactly one line is pushed at the end,
      copying the product's name, price and image, with the quantity asked for. */
  lemma AddAppends(items: seq<Item>, key: ProductId, p: Product, quantity: int, newId: LineId)
    requires forall j :: 0 <= j < |items| ==> items[j].productId != key
    ensures Add(items, key, p, quantity, newId)
      == items + [Item(newId, key, p.name, p.price, quantity, p.image)]
  {
  }

  /** Add keeps every line's quantity at least 1, line ids distinct and below
      the id source, and at most one line per product. */
  lemma AddKeepsInvariant(items: seq<Item>, key: ProductId, p: Product, quantity: int, newId: LineId)
    requires quantity >= 1
    requires ItemsValid(items) && UniqueLineIds(items) && UniqueProducts(items) && IdsBelow(items, newId)
    ensures var r := Add(items, key, p, quantity, newId);
      && ItemsValid(r)
      && UniqueLineIds(r)
      && UniqueProducts(r)
      && IdsBelow(r, if FindByProduct(items, key) >= 0 then newId else newId + 1)
  {
  }

  /** The full fold after an Add equals the old total plus `quantity` times
      the price of the line the quantity went to: the cached price when
      merging, the catalog price when appending. */
  lemma AddTotal(items: seq<Item>, key: ProductId, p: Product, quantity: int, newId: LineId)
    ensures var k := FindByProduct(items, key);
      k >= 0 ==> Total(Add(items, key, p, quantity, newId)) == Total(items) + items[k].price * quantity
    ensures FindByProduct(items, key) < 0 ==>
      Total(Add(items, key, p, quantity, newId)) == Total(items) + p.price * quantity
  {
    var k := FindByProduct(items, key);
    if k >= 0 {
      var merged := items[k].(quantity := items[k].quantity + quantity);
      assert Add(items, key, p, quantity, newId) == items[k := merged];
      SumUpdate(items, k, merged, ItemAmount);
      QuantityChangeAmount(items[k], items[k].quantity + quantity);
    } else {
      var line := NewLine(newId, key, p, quantity);
      assert Add(items, key, p, quantity, newId) == items + [line];
      SumConcat(items, [line], ItemAmount);
      assert Sum([line], ItemAmount) == Sum([line][..0], ItemAmount) + ItemAmount(line);
    }
  }

  /** The quantity of the product's line, or 0 when it has none. */
  function QuantityOf(items: seq<Item>, key: ProductId): int {
    var k := FindByProduct(items, key);
    if k >= 0 then items[k].quantity else 0
  }

  /** After an Add the product has a line, holding what it held before plus
      the quantity added; so adding it again merges into that line. */
  lemma AddedProductHasLine(items: seq<Item>, key: ProductId, p: Product, quantity: int, newId: LineId)
    ensures FindByProduct(Add(items, key, p, quantity, newId), key) >= 0
    ensures QuantityOf(Add(items, key, p, quantity, newId), key) == QuantityOf(items, key) + quantity
  {
    var k := FindByProduct(items, key);
    var r := Add(items, key, p, quantity, newId);
    if k < 0 {
      assert r[|items|].productId == key;
      assert FindByProduct(r, key) == |items|;
    } else {
      assert r[k].productId == key;
      assert FindByProduct(r, key) == k;
    }
  }

  /** As written, a request that names a product already in the cart by
      another spelling of its id (upper-case hex digits, which the catalog
      lookup accepts) matches no line, so a second line for the same product
      is pushed. */
  lemma AsWrittenDuplicatesProduct(items: seq<Item>, text: string, p: Product, quantity: int, newId: LineId, k: nat)
    requires IsObjectIdText(text) && !IsCanonicalId(text)
    requires forall j :: 0 <= j < |items| ==> IsCanonicalId(items[j].productId)
    requires k < |items| && items[k].productId == CanonicalId(text)
    ensures var r := AddAsWritten(items, text, CanonicalId(text), p, quantity, newId);
      |r| == |items| + 1 && r[k].productId == r[|items|].productId && !UniqueProducts(r)
  {
    assert FindByProduct(items, text) == -1;
  }

  /** The id of the example below, sent in upper case, is the stored id. */
  lemma UpperCaseSpelling()
    ensures IsObjectIdText("64B7F0C2A1D3E4F5A6B7C8D9")
    ensures CanonicalId("64B7F0C2A1D3E4F5A6B7C8D9") == "64b7f0c2a1d3e4f5a6b7c8d9"
  {
  }

  /** The request that shows it: the cart holds product
      64b7f0c2a1d3e4f5a6b7c8d9 and the same id is sent in upper case. The
      handler as written leaves two lines for the product; Add merges into
      the one line. */
  lemma UpperCaseIdExample(p: Product)
    ensures var lower := "64b7f0c2a1d3e4f5a6b7c8d9";
      var upper := "64B7F0C2A1D3E4F5A6B7C8D9";
      var items := [Item(0, lower, p.name, p.price, 1, p.image)];
      && AddAsWritten(items, upper, lower, p, 1, 1)
         == items + [Item(1, lower, p.name, p.price, 1, p.image)]
      && Add(items, lower, p, 1, 1) == [Item(0, lower, p.name, p.price, 2, p.image)]
  {
    var lower := "64b7f0c2a1d3e4f5a6b7c8d9";
    var upper := "64B7F0C2A1D3E4F5A6B7C8D9";
    var items := [Item(0, lower, p.name, p.price, 1, p.image)];
    assert FindByProduct(items, upper) == -1 by {
      assert items[0].productId != upper by { assert lower[2] != upper[2]; }
    }
    assert FindByProduct(items, lower) == 0;
  }

  // ---------------------------------------------------------------------------
  // Remove: filter, then compare lengths
  // ---------------------------------------------------------------------------

  /** Filtering out an id that no line has changes nothing. */
  lemma {:induction false} WithoutAbsent(items: seq<Item>, id: LineId)
    requires !HasLine(items, id)
    ensures Without(items, id) == items
  {
    if |items| > 0 {
      assert !HasLine(items[1..], id) by {
        forall i | 0 <= i < |items[1..]| ensures items[1..][i].id != id {
          assert items[1..][i] == items[i + 1];
        }
      }
      WithoutAbsent(items[1..], id);
      assert items == [items[0]] + items[1..];
    }
  }

  /** Filtering out an id that some line has makes the list shorter. */
  lemma {:induction false} WithoutShrinks(items: seq<Item>, id: LineId)
    requires HasLine(items, id)
    ensures |Without(items, id)| < |items|
  {
    if items[0].id != id {
      var i :| 0 <= i < |items| && items[i].id == id;
      assert items[1..][i - 1].id == id;
      WithoutShrinks(items[1..], id);
    }
  }

  /** The handler's length comparison detects exactly the case where no line
      has the id. */
  lemma LengthDetectsRemoval(items: seq<Item>, id: LineId)
    ensures |Without(items, id)| == |items| <==> !HasLine(items, id)
  {
    if HasLine(items, id) {
      WithoutShrinks(items, id);
    } else {
      WithoutAbsent(items, id);
    }
  }

  /** With distinct line ids, removing the line at `k` leaves the other lines
      in their original order. */
  lemma {:induction false} WithoutSplits(items: seq<Item>, id: LineId, k: nat)
    requires UniqueLineIds(items)
    requires k < |items| && items[k].id == id
    ensures Without(items, id) == items[..k] + items[k + 1..]
  {
    if k == 0 {
      assert !HasLine(items[1..], id) by {
        forall i | 0 <= i < |items[1..]| ensures items[1..][i].id != id {
          assert items[1..][i] == items[i + 1];
        }
      }
      WithoutAbsent(items[1..], id);
    } else {
      var tail := items[1..];
      assert UniqueLineIds(tail) by {
        forall i, j | 0 <= i < j < |tail| ensures tail[i].id != tail[j].id {
          assert tail[i] == items[i + 1] && tail[j] == items[j + 1];
        }
      }
      assert items[0].id != id by {
        assert items[0].id != items[k].id;
      }
      WithoutSplits(tail, id, k - 1);
      assert items[..k] == [items[0]] + tail[..k - 1];
      assert items[k + 1..] == tail[k..];
    }
  }

  /** After a removal no line has the id, so removing again changes nothing. */
  lemma WithoutIdempotent(items: seq<Item>, id: LineId)
    ensures !HasLine(Without(items, id), id)
    ensures Without(Without(items, id), id) == Without(items, id)
  {
    WithoutAbsent(Without(items, id), id);
  }

  /** Removing a line keeps the cart's invariants. */
  lemma WithoutKeepsInvariant(items: seq<Item>, id: LineId, bound: nat)
    requires ItemsValid(items) && UniqueLineIds(items) && UniqueProducts(items) && IdsBelow(items, bound)
    ensures var r := Without(items, id);
      ItemsValid(r) && UniqueLineIds(r) && UniqueProducts(r) && IdsBelow(r, bound)
  {
    if HasLine(items, id) {
      var k :| 0 <= k < |items| && items[k].id == id;
      WithoutSplits(items, id, k);
      DeleteKeepsInvariant(items, k, bound);
    } else {
      WithoutAbsent(items, id);
    }
  }

  lemma DeleteKeepsInvariant(items: seq<Item>, k: nat, bound: nat)
    requires k < |items|
    requires ItemsValid(items) && UniqueLineIds(items) && UniqueProducts(items) && IdsBelow(items, bound)
    ensures var r := items[..k] + items[k + 1..];
      ItemsValid(r) && UniqueLineIds(r) && UniqueProducts(r) && IdsBelow(r, bound)
  {
    var r := items[..k] + items[k + 1..];
    assert forall j :: 0 <= j < |r| ==> r[j] == items[if j < k then j else j + 1];
  }

  /** Removing the line at `k` lowers the fold by that line's price times
      quantity. */
  lemma WithoutTotal(items: seq<Item>, id: LineId, k: nat)
    requires UniqueLineIds(items)
    requires k < |items| && items[k].id == id
    ensures Total(Without(items, id)) == Total(items) - items[k].price * items[k].quantity
  {
    WithoutSplits(items, id, k);
    SumDelete(items, k, ItemAmount);
  }

  // ---------------------------------------------------------------------------
  // Update: an absolute set of one line's quantity
  // ---------------------------------------------------------------------------

  /** The line with the id gets exactly `quantity`, whatever it held before;
      its other fields and every other line are unchanged. */
  lemma SetQuantityEffect(items: seq<Item>, id: LineId, quantity: int, k: nat)
    requires UniqueLineIds(items)
    requires k < |items| && items[k].id == id
    ensures var r := SetQuantity(items, id, quantity);
      && |r| == |items|
      && r[k] == items[k].(quantity := quantity)
      && forall j :: 0 <= j < |items| && j != k ==> r[j] == items[j]
  {
    assert FindLine(items, id) == k;
  }

  /** Setting a quantity of at least 1 keeps the cart's invariants. */
  lemma SetQuantityKeepsInvariant(items: seq<Item>, id: LineId, quantity: int, bound: nat)
    requires quantity >= 1
    requires ItemsValid(items) && UniqueLineIds(items) && UniqueProducts(items) && IdsBelow(items, bound)
    ensures var r := SetQuantity(items, id, quantity);
      ItemsValid(r) && UniqueLineIds(r) && UniqueProducts(r) && IdsBelow(r, bound)
  {
  }

  /** Setting the quantity of the line at `k` moves the fold by that line's
      price times the change in quantity. */
  lemma SetQuantityTotal(items: seq<Item>, id: LineId, quantity: int, k: nat)
    requires UniqueLineIds(items)
    requires k < |items| && items[k].id == id
    ensures Total(SetQuantity(items, id, quantity))
      == Total(items) + items[k].price * (quantity - items[k].quantity)
  {
    SetQuantityEffect(items, id, quantity, k);
    SumUpdate(items, k, items[k].(quantity := quantity), ItemAmount);
    QuantityChangeAmount(items[k], quantity);
  }

  lemma QuantityChangeAmount(it: Item, quantity: int)
    ensures ItemAmount(it.(quantity := quantity)) == ItemAmount(it) + it.price * (quantity - it.quantity)
  {
    assert it.price * quantity == it.price * it.quantity + it.price * (quantity - it.quantity);
  }

  // ---------------------------------------------------------------------------
  // The handlers
  // ---------------------------------------------------------------------------

  /** GET /: the stored cart, or a new empty one, created and saved, when
      there is none. */
  method GetCart(db: Database, writeOk: bool) returns (r: Result<CartView>)
    requires db.Valid()
    modifies db`cart
    ensures db.Valid()
    ensures old(db.cart).Some? ==>
      && db.cart == old(db.cart)
      && r == Ok(CartView(old(db.cart).value.items, old(db.cart).value.total))
      && r.value.total == Total(r.value.items)
    ensures old(db.cart).None? && writeOk ==>
      db.cart == Some(CartDoc(DefaultUserId, [], 0)) && r == Ok(CartView([], 0))
    ensures old(db.cart).None? && !writeOk ==> db.cart == None && r == Err(ServerError)
  {
    var cart := db.FindCart();
    if cart == null {
      cart := new Cart(DefaultUserId, [], 0);
      var saved := db.SaveCart(cart, writeOk);
      if !saved {
        return Err(ServerError);
      }
    }
    var total := Total(cart.items);
    return Ok(CartView(cart.items, total));
  }

  /** POST / with `{ productId, quantity }` (an absent field arrives as "" or 0,
      both falsy like a missing one). */
  method AddItem(db: Database, productId: string, quantity: int, writeOk: bool) returns (r: Result<CartView>)
    requires db.Valid()
    modifies db`cart, db`nextId
    ensures db.Valid()
    ensures productId == "" || quantity < 1 ==>
      r == Err(BadRequest(InvalidAddMessage)) && db.cart == old(db.cart) && db.nextId == old(db.nextId)
    ensures productId != "" && quantity >= 1 && !IsObjectIdText(productId) ==>
      r == Err(ServerError) && db.cart == old(db.cart) && db.nextId == old(db.nextId)
    ensures productId != "" && quantity >= 1 && FindById(old(db.catalog), productId).Absent? ==>
      r == Err(NotFound(ProductNotFoundMessage)) && db.cart == old(db.cart) && db.nextId == old(db.nextId)
    ensures productId != "" && quantity >= 1 && FindById(old(db.catalog), productId).Found? ==>
      var found := FindById(old(db.catalog), productId);
      var before := ItemsOf(old(db.cart));
      var after := Add(before, found.key, found.product, quantity, old(db.nextId));
      && db.nextId == old(db.nextId) + (if FindByProduct(before, found.key) >= 0 then 0 else 1)
      && (writeOk ==> db.cart == Some(CartDoc(DefaultUserId, after, Total(after)))
                      && r == Ok(CartView(after, Total(after))))
      && (!writeOk ==> db.cart == old(db.cart) && r == Err(ServerError))
  {
    // `!quantity` is the 0 case, which `quantity < 1` already covers
    if productId == "" || quantity < 1 {
      return Err(BadRequest(InvalidAddMessage));
    }
    var found := FindById(db.catalog, productId);
    if found.Malformed? {
      return Err(ServerError);
    }
    if found.Absent? {
      return Err(NotFound(ProductNotFoundMessage));
    }
    var cart := db.FindCart();
    if cart == null {
      cart := new Cart(DefaultUserId, [], 0);
    }
    ghost var before := cart.items;
    ghost var after := Add(before, found.key, found.product, quantity, db.nextId);
    AddKeepsInvariant(before, found.key, found.product, quantity, db.nextId);
    var existing := FindByProduct(cart.items, found.key);
    if existing > -1 {
      cart.items := cart.items[existing := cart.items[existing].(quantity := cart.items[existing].quantity + quantity)];
      assert cart.items == after;
    } else {
      var lineId := db.FreshId();
      cart.items := cart.items + [NewLine(lineId, found.key, found.product, quantity)];
      assert cart.items == after;
    }
    var saved := db.SaveCart(cart, writeOk);
    if !saved {
      return Err(ServerError);
    }
    var total := Total(cart.items);
    return Ok(CartView(cart.items, total));
  }

  /** DELETE /:id: filter the line out; when the length did not change, answer
      404 without saving. */
  method RemoveItem(db: Database, id: LineId, writeOk: bool) returns (r: Result<CartView>)
    requires db.Valid()
    modifies db`cart
    ensures db.Valid()
    ensures old(db.cart).None? ==> r == Err(NotFound(CartNotFoundMessage)) && db.cart == old(db.cart)
    ensures old(db.cart).Some? && !HasLine(old(db.cart).value.items, id) ==>
      r == Err(NotFound(ItemNotFoundMessage)) && db.cart == old(db.cart)
    ensures old(db.cart).Some? && HasLine(old(db.cart).value.items, id) ==>
      var rest := Without(old(db.cart).value.items, id);
      && (writeOk ==> db.cart == Some(CartDoc(DefaultUserId, rest, Total(rest)))
                      && r == Ok(CartView(rest, Total(rest))))
      && (!writeOk ==> db.cart == old(db.cart) && r == Err(ServerError))
  {
    var cart := db.FindCart();
    if cart == null {
      return Err(NotFound(CartNotFoundMessage));
    }
    var originalLength := |cart.items|;
    LengthDetectsRemoval(cart.items, id);
    WithoutKeepsInvariant(cart.items, id, db.nextId);
    cart.items := Without(cart.items, id);
    if |cart.items| == originalLength {
      return Err(NotFound(ItemNotFoundMessage));
    }
    var saved := db.SaveCart(cart, writeOk);
    if !saved {
      return Err(ServerError);
    }
    var total := Total(cart.items);
    return Ok(CartView(cart.items, total));
  }

  /** Two POST requests for the same product, `a` then `b`: the first adds a
      line only when the product had none, the second merges into that line
      and adds none, and the stored cart is the reply's lines, with exactly
      one line for the product holding what it held before plus `a + b`. */
  method AddTwice(db: Database, productId: string, a: int, b: int) returns (first: Result<CartView>, second: Result<CartView>)
    requires db.Valid()
    requires productId != "" && a >= 1 && b >= 1 && FindById(db.catalog, productId).Found?
    modifies db`cart, db`nextId
    ensures db.Valid()
    ensures first.Ok? && second.Ok?
    ensures var key := FindById(db.catalog, productId).key;
      |first.value.items|
        == |ItemsOf(old(db.cart))| + (if FindByProduct(ItemsOf(old(db.cart)), key) >= 0 then 0 else 1)
    ensures |second.value.items| == |first.value.items|
    ensures db.cart == Some(CartDoc(DefaultUserId, second.value.items, Total(second.value.items)))
    ensures UniqueProducts(second.value.items)
    ensures var key := FindById(db.catalog, productId).key;
      && FindByProduct(second.value.items, key) >= 0
      && QuantityOf(second.value.items, key) == QuantityOf(ItemsOf(old(db.cart)), key) + a + b
  {
    var found := FindById(db.catalog, productId);
    ghost var before := ItemsOf(db.cart);
    ghost var id := db.nextId;
    first := AddItem(db, productId, a, true);
    AddedProductHasLine(before, found.key, found.product, a, id);
    ghost var middle := first.value.items;
    ghost var id2 := db.nextId;
    second := AddItem(db, productId, b, true);
    AddedProductHasLine(middle, found.key, found.product, b, id2);
  }

  /** Two DELETE requests for the same line: the first removes it, the
      second finds nothing to remove, answers 404 and saves nothing. */
  method RemoveTwice(db: Database, id: LineId) returns (first: Result<CartView>, second: Result<CartView>)
    requires db.Valid()
    requires db.cart.Some? && HasLine(db.cart.value.items, id)
    modifies db`cart
    ensures db.Valid()
    ensures var rest := Without(old(db.cart).value.items, id);
      && first == Ok(CartView(rest, Total(rest)))
      && db.cart == Some(CartDoc(DefaultUserId, rest, Total(rest)))
    ensures second == Err(NotFound(ItemNotFoundMessage))
  {
    first := RemoveItem(db, id, true);
    WithoutIdempotent(old(db.cart).value.items, id);
    second := RemoveItem(db, id, true);
  }

  /** PUT /:id with `{ quantity }`: set that line's quantity. */
  method UpdateItem(db: Database, id: LineId, quantity: int, writeOk: bool) returns (r: Result<CartView>)
    requires db.Valid()
    modifies db`cart
    ensures db.Valid()
    ensures quantity < 1 ==> r == Err(BadRequest(InvalidQuantityMessage)) && db.cart == old(db.cart)
    ensures quantity >= 1 && old(db.cart).None? ==>
      r == Err(NotFound(CartNotFoundMessage)) && db.cart == old(db.cart)
    ensures quantity >= 1 && old(db.cart).Some? && !HasLine(old(db.cart).value.items, id) ==>
      r == Err(NotFound(ItemNotFoundMessage)) && db.cart == old(db.cart)
    ensures quantity >= 1 && old(db.cart).Some? && HasLine(old(db.cart).value.items, id) ==>
      var after := SetQuantity(old(db.cart).value.items, id, quantity);
      && (writeOk ==> db.cart == Some(CartDoc(DefaultUserId, after, Total(after)))
                      && r == Ok(CartView(after, Total(after))))
      && (!writeOk ==> db.cart == old(db.cart) && r == Err(ServerError))
  {
    // `!quantity` is the 0 case, which `quantity < 1` already covers
    if quantity < 1 {
      return Err(BadRequest(InvalidQuantityMessage));
    }
    var cart := db.FindCart();
    if cart == null {
      return Err(NotFound(CartNotFoundMessage));
    }
    var k := FindLine(cart.items, id);
    if k == -1 {
      return Err(NotFound(ItemNotFoundMessage));
    }
    SetQuantityKeepsInvariant(cart.items, id, quantity, db.nextId);
    cart.items := cart.items[k := cart.items[k].(quantity := quantity)];
    var saved := db.SaveCart(cart, writeOk);
    if !saved {
      return Err(ServerError);
    }
    var total := Total(cart.items);
    return Ok(CartView(cart.items, total));
  }
}
