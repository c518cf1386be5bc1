// The order endpoints and the payment-confirmation route: creation with a
// total computed from current catalogue prices, the payment-gateway amount,
// per-user reads, the admin status change and the owner's payment
// confirmation.

module OrderController {
  import opened Wrappers
  import opened UserModel
  import opened OrderModel
  import opened ProductModel
  import opened Store
  import Text
  import Seqs
  import Sorting

  /** `price * quantity`, the amount of one line. */
  function LineAmount(price: real, quantity: int): real
  {
    price * quantity as real
  }

  /** Catalogue price times the line's quantity, or None if the product is gone. */
  function LinePrice(products: seq<Product>, item: LineItem): (r: Option<real>)
    ensures r.None? <==> FindProduct(products, item.productId).None?
  {
    var found := FindProduct(products, item.productId);
    if found.None? then None else Some(LineAmount(products[found.value].price, item.quantity))
  }

  /** A line's price depends on its product id and quantity alone. */
  lemma LinePriceOfIdAndQuantity(products: seq<Product>, a: LineItem, b: LineItem)
    requires a.productId == b.productId && a.quantity == b.quantity
    ensures LinePrice(products, a) == LinePrice(products, b)
  {
  }

  /** The order total the server computes: the sum of the catalogue line
      prices, or None when a line names a missing product. Summed from the
      back, as the loop accumulates. */
  function ServerTotal(products: seq<Product>, items: seq<LineItem>): (r: Option<real>)
    ensures r.None? <==> exists i :: 0 <= i < |items| && FindProduct(products, items[i].productId).None?
  {
    if items == [] then Some(0.0)
    else
      var init := items[..|items| - 1];
      var prefix := ServerTotal(products, init);
      var last := LinePrice(products, items[|items| - 1]);
      assert forall i :: 0 <= i < |init| ==> init[i] == items[i];
      if prefix.Some? && last.Some? then Some(prefix.value + last.value) else None
  }

  /** The client's own prices, names and images play no part in the total:
      two submissions that agree on product ids and quantities get the same
      total. */
  lemma {:induction false} ClientPricesIgnored(products: seq<Product>, items: seq<LineItem>, other: seq<LineItem>)
    requires |other| == |items|
    requires forall i :: 0 <= i < |items| ==>
      other[i].productId == items[i].productId && other[i].quantity == items[i].quantity
    ensures ServerTotal(products, other) == ServerTotal(products, items)
  {
    if items != [] {
      var n := |items| - 1;
      ClientPricesIgnored(products, items[..n], other[..n]);
      LinePriceOfIdAndQuantity(products, other[n], items[n]);
    }
  }

  /** The total is additive over the submitted lines. */
  lemma {:induction false} ServerTotalAppend(products: seq<Product>, items: seq<LineItem>, item: LineItem)
    requires ServerTotal(products, items).Some? && LinePrice(products, item).Some?
    ensures ServerTotal(products, items + [item]) ==
      Some(ServerTotal(products, items).value + LinePrice(products, item).value)
  {
    assert (items + [item])[..|items|] == items;
  }

  /** The `for ... of req.body.items` loop: looks each product up, returns at
      the first missing one, and accumulates price times quantity. */
  method ComputeTotal(products: seq<Product>, items: seq<LineItem>) returns (total: Option<real>)
    ensures total == ServerTotal(products, items)
  {
    var sum := 0.0;
    var i := 0;
    while i < |items|
      invariant 0 <= i <= |items|
      invariant ServerTotal(products, items[..i]) == Some(sum)
    {
      var pi := FindProduct(products, items[i].productId);
      if pi.None? {
        return None;
      }
      assert items[..i + 1] == items[..i] + [items[i]];
      ServerTotalAppend(products, items[..i], items[i]);
      sum := sum + LineAmount(products[pi.value].price, items[i].quantity);
      i := i + 1;
    }
    assert items[..i] == items;
    total := Some(sum);
  }

  /** `${first || ''} ${last || ''}`.trim() || 'Customer'. */
  function PurchaserName(firstName: string, lastName: string): (r: string)
    ensures r != ""
  {
    var full := Text.Trim(firstName + " " + lastName);
    if full == "" then "Customer" else full
  }

  /** A user who passed the schema has both names, so the fallback is never
      used and the name is "first last" exactly. */
  lemma ValidUserPurchaserName(u: User)
    requires ValidUser(u)
    ensures PurchaserName(u.firstName, u.lastName) == u.firstName + " " + u.lastName
  {
    var full := u.firstName + " " + u.lastName;
    assert full[0] == u.firstName[0];
    assert full[|full| - 1] == u.lastName[|u.lastName| - 1];
    Text.TrimOfTrimmed(full);
  }

  /** The fallback applies exactly when both names are blank. */
  lemma BlankNamesGiveCustomer()
    ensures PurchaserName("", "") == "Customer"
  {
    assert Text.IsSpace(' ');
    Text.TrimSpacePrefix(' ', "");
    assert Text.Trim("") == "";
  }

  /** POST /: creates a pending order for the caller from the submitted
      lines. The stored lines are the client's copies; only the total is
      recomputed. A blank shipping address fails validation and a repeated
      `orderId` the unique index, both as 500. The clock reading `now` dates
      the order. */
  method CreateOrder(db: Db, uid: UserId, items: seq<LineItem>, shippingAddress: string,
                     paymentMethod: Option<string>, orderId: string, now: int)
    returns (reply: Reply<Order>)
    requires db.Valid()
    modifies db
    ensures db.Valid()
    ensures db.users == old(db.users) && db.products == old(db.products)
    ensures reply.Respond? ==> db.orders == old(db.orders) && db.nextId == old(db.nextId)
    ensures FindUser(db.users, uid).None? ==> reply == Respond(NOT_FOUND, "User not found")
    ensures FindUser(db.users, uid).Some? && ServerTotal(db.products, items).None? ==>
      reply == Respond(NOT_FOUND, "Product not found")
    ensures FindUser(db.users, uid).Some? && ServerTotal(db.products, items).Some? ==>
      (reply.Done? <==> shippingAddress != "" && FindOrderById(old(db.orders), orderId).None?)
    ensures reply.Done? ==>
      && FindUser(db.users, uid).Some?
      && ServerTotal(db.products, items).Some?
      && (var u := db.users[FindUser(db.users, uid).value];
          reply == Done(CREATED, Order(old(db.nextId), orderId, uid, u.email,
                                       PurchaserName(u.firstName, u.lastName), items,
                                       ServerTotal(db.products, items).value, shippingAddress,
                                       paymentMethod, None, Pending, now)))
    ensures reply.Done? ==> db.orders == old(db.orders) + [reply.body] && db.nextId == old(db.nextId) + 1
  {
    var ui := FindUser(db.users, uid);
    if ui.None? {
      return Respond(NOT_FOUND, "User not found");
    }
    var total := ComputeTotal(db.products, items);
    if total.None? {
      return Respond(NOT_FOUND, "Product not found");
    }
    var user := db.users[ui.value];
    var order := Order(db.nextId, orderId, uid, user.email, PurchaserName(user.firstName, user.lastName),
                       items, total.value, shippingAddress, paymentMethod, None, Pending, now);
    if !ValidOrder(order) || FindOrderById(db.orders, orderId).Some? {
      return Respond(SERVER_ERROR, "Server error");
    }
    assert uid in UserIds(db.users);
    db.AddOrder(order);
    reply := Done(CREATED, order);
  }

  /** `Math.round(x)`: the nearest integer, halves rounded up. */
  function Round(x: real): (r: int)
    ensures x - 0.5 < r as real <= x + 0.5
  {
    (x + 0.5).Floor
  }

  /** The amount the gateway is asked for, in the smallest currency unit:
      None (400 "Invalid amount") when the amount is missing, zero or below 1. */
  function GatewayAmount(amount: Option<real>): (r: Option<int>)
    ensures r.Some? <==> amount.Some? && amount.value >= 1.0
    ensures r.Some? ==> amount.value * 100.0 - 0.5 < r.value as real <= amount.value * 100.0 + 0.5
    ensures r.Some? ==> r.value >= 100
  {
    if amount.None? || amount.value < 1.0 then None
    else Some(Round(amount.value * 100.0))
  }

  /** POST /create-razorpay. The gateway is a parameter: it gets the amount
      and answers with an order id or a failure. */
  function CreateRazorpayOrder(amount: Option<real>, gateway: int -> Option<string>): (r: Reply<string>)
    ensures GatewayAmount(amount).None? ==> r == Respond(BAD_REQUEST, "Invalid amount")
    ensures r.Done? ==> GatewayAmount(amount).Some? && gateway(GatewayAmount(amount).value) == Some(r.body)
    ensures r.Respond? && GatewayAmount(amount).Some? ==> r == Respond(SERVER_ERROR, "Failed to create payment order")
  {
    match GatewayAmount(amount)
    case None => Respond(BAD_REQUEST, "Invalid amount")
    case Some(paise) =>
      match gateway(paise)
      case None => Respond(SERVER_ERROR, "Failed to create payment order")
      case Some(id) => Done(OK, id)
  }

  /** The caller's orders as `.sort({ createdAt: -1 })` returns them: no
      order has a `createdAt`, so all tie on the missing key and the
      collection's stored (creation) order comes back unchanged. */
  function OrdersAsWritten(orders: seq<Order>, uid: UserId): (r: seq<Order>)
    ensures forall i :: 0 <= i < |r| ==> r[i].user == uid && r[i] in orders
    ensures forall i :: 0 <= i < |orders| && orders[i].user == uid ==> orders[i] in r
  {
    Seqs.Filter(orders, (o: Order) => o.user == uid)
  }

  /** Sorting ascending by the negated date puts later dates first. */
  function NewestKey(o: Order): real
  {
    -(o.date as real)
  }

  /** The caller's orders newest first by their creation `date`, the order
      the sort evidently means; orders of the same date keep their stored
      order. */
  function OrdersNewestFirst(orders: seq<Order>, uid: UserId): (r: seq<Order>)
    ensures forall i, j :: 0 <= i < j < |r| ==> r[i].date >= r[j].date
    ensures multiset(r) == multiset(OrdersAsWritten(orders, uid))
    ensures Sorting.TiesInOrder(r, OrdersAsWritten(orders, uid), NewestKey)
  {
    var r := Sorting.SortBy(OrdersAsWritten(orders, uid), NewestKey);
    assert forall i, j :: 0 <= i < j < |r| ==> NewestKey(r[i]) <= NewestKey(r[j]);
    r
  }

  /** As written, a user who placed `a` and then the later `b` gets `a`
      first, oldest first, where newest first would give `b` first. */
  lemma AsWrittenListsOldestFirst(a: Order, b: Order)
    requires a.user == b.user && a.date < b.date
    ensures OrdersAsWritten([a, b], a.user) == [a, b]
    ensures OrdersNewestFirst([a, b], a.user) == [b, a]
  {
    Seqs.FilterAll([a, b], (o: Order) => o.user == a.user);
    Sorting.SortTwo(a, b, NewestKey);
  }

  /** GET /: the caller's orders and only theirs, newest first by creation
      date (with the sort key the schema actually has). */
  method GetOrders(db: Db, uid: UserId) returns (orders: seq<Order>)
    ensures forall i :: 0 <= i < |orders| ==> orders[i].user == uid && orders[i] in db.orders
    ensures forall i :: 0 <= i < |db.orders| && db.orders[i].user == uid ==> db.orders[i] in orders
    ensures forall i, j :: 0 <= i < j < |orders| ==> orders[i].date >= orders[j].date
    ensures orders == OrdersNewestFirst(db.orders, uid)
  {
    var mine := OrdersAsWritten(db.orders, uid);
    orders := OrdersNewestFirst(db.orders, uid);
    forall i | 0 <= i < |orders| ensures orders[i] in mine {
      assert orders[i] in multiset(orders);
    }
    forall i | 0 <= i < |mine| ensures mine[i] in orders {
      assert mine[i] in multiset(mine);
    }
  }

  /** GET /:id: one order, only if the caller owns it; another user's order
      is reported exactly like a missing one. */
  method GetOrder(db: Db, uid: UserId, key: OrderKey) returns (reply: Reply<Order>)
    ensures reply.Done? ==> reply.status == OK && reply.body in db.orders && reply.body.key == key && reply.body.user == uid
    ensures reply.Respond? <==> forall i :: 0 <= i < |db.orders| ==> !(db.orders[i].key == key && db.orders[i].user == uid)
    ensures reply.Respond? ==> reply == Respond(NOT_FOUND, "Order not found")
  {
    var oi := Seqs.FirstIndex(db.orders, (o: Order) => o.key == key && o.user == uid);
    if oi.None? {
      return Respond(NOT_FOUND, "Order not found");
    }
    reply := Done(OK, db.orders[oi.value]);
  }

  /** The statuses an admin may set: every one but `pending`. */
  function AdminStatus(name: string): (r: Option<Status>)
    ensures r != Some(Pending)
    ensures r.Some? ==> StatusName(r.value) == name
    ensures r.None? <==> name !in ["processing", "shipped", "delivered", "cancelled"]
  {
    if name in ["processing", "shipped", "delivered", "cancelled"] then ParseStatus(name) else None
  }

  /** Every status but `pending` can be set by name. */
  lemma AdminStatusNames(s: Status)
    ensures AdminStatus(StatusName(s)) == if s == Pending then None else Some(s)
  {
  }

  /** PATCH /:orderId/status: a status outside the four is 400; the order is
      found by its human-readable `orderId` (404 if none), and only its
      status changes. */
  method UpdateOrderStatus(db: Db, orderId: string, status: string) returns (reply: Reply<Order>)
    requires db.Valid()
    modifies db
    ensures db.Valid()
    ensures db.users == old(db.users) && db.products == old(db.products) && db.nextId == old(db.nextId)
    ensures AdminStatus(status).None? ==> reply == Respond(BAD_REQUEST, "Invalid status") && db.orders == old(db.orders)
    ensures AdminStatus(status).Some? && FindOrderById(old(db.orders), orderId).None? ==>
      reply == Respond(NOT_FOUND, "Order not found") && db.orders == old(db.orders)
    ensures AdminStatus(status).Some? && FindOrderById(old(db.orders), orderId).Some? ==>
      (var i := FindOrderById(old(db.orders), orderId).value;
       var updated := old(db.orders)[i].(status := AdminStatus(status).value);
       db.orders == old(db.orders)[i := updated] && reply == Done(OK, updated))
  {
    var s := AdminStatus(status);
    if s.None? {
      return Respond(BAD_REQUEST, "Invalid status");
    }
    var oi := FindOrderById(db.orders, orderId);
    if oi.None? {
      return Respond(NOT_FOUND, "Order not found");
    }
    var updated := db.orders[oi.value].(status := s.value);
    db.ReplaceOrder(oi.value, updated);
    reply := Done(OK, updated);
  }

  /** PATCH /:id/payment: with no authenticated caller 401; an order that is
      missing or owned by someone else is 404; otherwise the payment id is
      recorded and the status forced to `processing`, whatever it was. */
  method ConfirmPayment(db: Db, caller: Option<UserId>, key: OrderKey, paymentId: Option<string>)
    returns (reply: Reply<Order>)
    requires db.Valid()
    modifies db
    ensures db.Valid()
    ensures db.users == old(db.users) && db.products == old(db.products) && db.nextId == old(db.nextId)
    ensures reply.Respond? ==> db.orders == old(db.orders)
    ensures caller.None? ==> reply == Respond(UNAUTHORIZED, "Not authorized")
    ensures caller.Some? ==>
      match FindOrder(old(db.orders), key)
      case None => reply == Respond(NOT_FOUND, "Order not found or unauthorized")
      case Some(i) =>
        if old(db.orders)[i].user != caller.value then
          reply == Respond(NOT_FOUND, "Order not found or unauthorized")
        else
          var updated := old(db.orders)[i].(paymentId := paymentId, status := Processing);
          db.orders == old(db.orders)[i := updated] && reply == Done(OK, updated)
  {
    if caller.None? {
      return Respond(UNAUTHORIZED, "Not authorized");
    }
    var oi := FindOrder(db.orders, key);
    if oi.None? || db.orders[oi.value].user != caller.value {
      return Respond(NOT_FOUND, "Order not found or unauthorized");
    }
    var updated := db.orders[oi.value].(paymentId := paymentId, status := Processing);
    db.ReplaceOrder(oi.value, updated);
    reply := Done(OK, updated);
  }
}
