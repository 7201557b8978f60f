/** The order document: an immutable record of one checkout. */
module OrderSchema {
  import opened Totals
  import opened CartSchema

  /** An order line; it carries no cart line id. */
  datatype OrderLine = OrderLine(
    productId: ProductId,
    name: string,
    price: Cents,
    quantity: int,
    image: string)

  type Timestamp = int

  datatype Order = Order(
    id: nat,
    userId: string,
    items: seq<OrderLine>,
    total: int,
    customerName: string,
    customerEmail: string,
    timestamp: Timestamp)

  function LineAmount(l: OrderLine): int {
    l.price * l.quantity
  }

  /** Sum of price times quantity over the order's lines. */
  function OrderTotal(lines: seq<OrderLine>): int {
    Sum(lines, LineAmount)
  }

  /** The schema's `required` fields that an order can lack: a string field
      is missing when it is empty. */
  predicate OrderValid(o: Order) {
    o.customerName != "" && o.customerEmail != ""
  }
}
