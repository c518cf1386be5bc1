// The order record: its status enum and default, the line items copied from
// the client, and the fields an order cannot be saved without.

module OrderModel {
  import opened Wrappers
  import UserModel
  import ProductModel

  type OrderKey = nat

  /** The five statuses of the schema's enum. */
  datatype Status = Processing | Shipped | Delivered | Cancelled | Pending

  const DEFAULT_STATUS: Status := Pending

  function StatusName(s: Status): string
  {
    match s
    case Processing => "processing"
    case Shipped => "shipped"
    case Delivered => "delivered"
    case Cancelled => "cancelled"
    case Pending => "pending"
  }

  /** Reads a status name; None for a string outside the enum. */
  function ParseStatus(name: string): (r: Option<Status>)
    ensures r.Some? ==> StatusName(r.value) == name
  {
    if name == "processing" then Some(Processing)
    else if name == "shipped" then Some(Shipped)
    else if name == "delivered" then Some(Delivered)
    else if name == "cancelled" then Some(Cancelled)
    else if name == "pending" then Some(Pending)
    else None
  }

  /** Every status round-trips through its name, so the enum accepts exactly
      the five names. */
  lemma ParseStatusName(s: Status)
    ensures ParseStatus(StatusName(s)) == Some(s)
  {
  }

  /** A line item as the client sent it: nothing here is checked against the
      catalogue. */
  datatype LineItem = LineItem(
    productId: ProductModel.ProductId,
    name: string,
    size: real,
    quantity: int,
    price: real,
    image: string)

  /** A stored order. `key` is the document id, `orderId` the human-readable
      id with its own unique index, `date` the creation time in milliseconds
      (`Date.now` by default). The schema declares no timestamps, so an order
      has no `createdAt`. */
  datatype Order = Order(
    key: OrderKey,
    orderId: string,
    user: UserModel.UserId,
    userEmail: string,
    userName: string,
    items: seq<LineItem>,
    total: real,
    shippingAddress: string,
    paymentMethod: Option<string>,
    paymentId: Option<string>,
    status: Status,
    date: int)

  /** What validation demands on save: an owner (always present here), a
      total (a number, always present here) and a nonempty shipping address. */
  predicate ValidOrder(o: Order)
  {
    o.shippingAddress != ""
  }
}
