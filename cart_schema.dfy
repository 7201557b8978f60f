/** The cart document: its line-item schema, its defaults and the pre-save hook
    that derives `total` from the lines. */
module CartSchema {
  import opened Totals

  /** A product id in the printed form of an ObjectId. */
  type ProductId = string

  /** The `_id` the store gives each line; an abstract fresh value. */
  type LineId = nat

  /** Money in integer cents. */
  type Cents = int

  const DefaultUserId: string := "mock-user"

  /** One cart line: a copy of the product's name, price and image taken when
      the line was created, and the quantity wanted. */
  datatype Item = Item(
    id: LineId,
    productId: ProductId,
    name: string,
    price: Cents,
    quantity: int,
    image: string)

  function ItemAmount(it: Item): int {
    it.price * it.quantity
  }

  /** Sum of price times quantity over the lines. */
  function Total(items: seq<Item>): int {
    Sum(items, ItemAmount)
  }

  /** The schema's `min: 1` on `quantity`, the one field constraint a line can fail. */
  predicate ItemsValid(items: seq<Item>) {
    forall i :: 0 <= i < |items| ==> items[i].quantity >= 1
  }

  /** A cart as the store holds it. */
  datatype CartDoc = CartDoc(userId: string, items: seq<Item>, total: int)

  /** An in-memory cart document, as a query returns it or `new Cart(...)` makes it.
      Handlers change its fields; nothing reaches the store until it is saved. */
  class Cart {
    var userId: string
    var items: seq<Item>
    var total: int

    constructor (userId: string, items: seq<Item>, total: int)
      ensures this.userId == userId && this.items == items && this.total == total
    {
      this.userId := userId;
      this.items := items;
      this.total := total;
    }

    function Doc(): CartDoc
      reads this
    {
      CartDoc(userId, items, total)
    }

    /** What a save does before the write: validate against the schema, and
        when that passes run the pre-save hook, which overwrites `total` with
        the fold over the current lines, whatever it held before. */
    method PreSave() returns (valid: bool)
      modifies this`total
      ensures valid <==> ItemsValid(items)
      ensures valid ==> total == Total(items)
      ensures !valid ==> total == old(total)
    {
      valid := forall i :: 0 <= i < |items| ==> items[i].quantity >= 1;
      if valid {
        total := Total(items);
      }
    }
  }
}
