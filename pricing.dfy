// The storefront's money rules on the client: the cart context's item count
// and subtotal, and the summary the cart and checkout pages show (free
// shipping from 100, 10 otherwise, 8% tax). The cart page's decrement
// button and its empty state are here too.

module Pricing {
  import opened Wrappers
  import opened ProductModel
  import opened OrderModel
  import OrderController
  import CartLines
  import Store

  /** A cart line as the client holds it: the populated product. */
  datatype ClientLine = ClientLine(product: Product, size: real, quantity: int)

  const FREE_SHIPPING_FROM: real := 100.0
  const SHIPPING_FEE: real := 10.0
  const TAX_RATE: real := 0.08

  /** `items.reduce((sum, item) => sum + item.quantity, 0)`. */
  function TotalItems(items: seq<ClientLine>): int
  {
    if items == [] then 0 else TotalItems(items[..|items| - 1]) + items[|items| - 1].quantity
  }

  /** `items.reduce((sum, item) => sum + item.product.price * item.quantity, 0)`. */
  function TotalPrice(items: seq<ClientLine>): real
  {
    if items == [] then 0.0
    else
      var last := items[|items| - 1];
      TotalPrice(items[..|items| - 1]) + OrderController.LineAmount(last.product.price, last.quantity)
  }

  /** Lines of positive quantity and non-negative price never give a
      negative subtotal, and add up to at least their item count. */
  lemma {:induction false} TotalsNonNegative(items: seq<ClientLine>)
    requires forall i :: 0 <= i < |items| ==> items[i].quantity >= 1 && items[i].product.price >= 0.0
    ensures TotalItems(items) >= |items|
    ensures TotalPrice(items) >= 0.0
  {
    if items != [] {
      var init := items[..|items| - 1];
      assert forall i :: 0 <= i < |init| ==> init[i] == items[i];
      TotalsNonNegative(init);
      var last := items[|items| - 1];
      assert OrderController.LineAmount(last.product.price, last.quantity) >= 0.0;
    }
  }

  function Shipping(subtotal: real): (r: real)
    ensures r == 0.0 <==> subtotal >= FREE_SHIPPING_FROM
    ensures r == 0.0 || r == SHIPPING_FEE
  {
    if subtotal >= FREE_SHIPPING_FROM then 0.0 else SHIPPING_FEE
  }

  function Tax(subtotal: real): real
  {
    subtotal * TAX_RATE
  }

  /** The displayed total, the amount the checkout pays. */
  function Total(subtotal: real): real
  {
    subtotal + Shipping(subtotal) + Tax(subtotal)
  }

  /** A non-negative subtotal always costs strictly more than itself: there
      is either a fee or (from 100 on) positive tax. */
  lemma TotalExceedsSubtotal(subtotal: real)
    requires subtotal >= 0.0
    ensures Total(subtotal) > subtotal
  {
  }

  /** The total is not monotone in the subtotal: just below the threshold
      the fee makes a smaller cart dearer than one of exactly 100. */
  lemma ThresholdMakesSmallerCartDearer()
    ensures Total(99.0) > Total(FREE_SHIPPING_FROM)
  {
    assert Total(99.0) == 99.0 + 10.0 + 7.92;
    assert Total(FREE_SHIPPING_FROM) == 108.0;
  }

  /** What a cart line becomes in the order request: the product's id,
      name and current client price, and its image (or else its first). */
  function OrderLine(line: ClientLine): LineItem
  {
    var p := line.product;
    var image := if p.image != "" then p.image else if p.images != [] then p.images[0] else "";
    LineItem(p.id, p.name, line.size, line.quantity, p.price, image)
  }

  function OrderLines(items: seq<ClientLine>): (r: seq<LineItem>)
    ensures |r| == |items|
    ensures forall i :: 0 <= i < |items| ==>
      r[i].productId == items[i].product.id && r[i].quantity == items[i].quantity && r[i].price == items[i].product.price
  {
    seq(|items|, i requires 0 <= i < |items| => OrderLine(items[i]))
  }

  /** When the client's prices are the catalogue's, the subtotal the client
      shows is exactly the total the server stores for the order. */
  lemma {:induction false} SubtotalIsServerTotal(products: seq<Product>, items: seq<ClientLine>)
    requires forall i :: 0 <= i < |items| ==>
      && Store.FindProduct(products, items[i].product.id).Some?
      && products[Store.FindProduct(products, items[i].product.id).value].price == items[i].product.price
    ensures OrderController.ServerTotal(products, OrderLines(items)) == Some(TotalPrice(items))
  {
    if items != [] {
      var n := |items| - 1;
      var lines := OrderLines(items);
      assert OrderLines(items[..n]) == lines[..n];
      assert forall i :: 0 <= i < n ==> items[..n][i] == items[i];
      SubtotalIsServerTotal(products, items[..n]);
    }
  }

  /** The checkout pays the displayed total, shipping and tax included,
      while the order stores the bare subtotal: the two never agree. */
  lemma PaymentExceedsStoredTotal(products: seq<Product>, items: seq<ClientLine>)
    requires forall i :: 0 <= i < |items| ==> items[i].quantity >= 1 && items[i].product.price >= 0.0
    requires forall i :: 0 <= i < |items| ==>
      && Store.FindProduct(products, items[i].product.id).Some?
      && products[Store.FindProduct(products, items[i].product.id).value].price == items[i].product.price
    ensures OrderController.ServerTotal(products, OrderLines(items)).Some?
    ensures Total(TotalPrice(items)) > OrderController.ServerTotal(products, OrderLines(items)).value
  {
    SubtotalIsServerTotal(products, items);
    TotalsNonNegative(items);
    TotalExceedsSubtotal(TotalPrice(items));
  }

  /** The cart page: the empty state, or the lines with the summary. */
  datatype CartView = EmptyState | Summary(count: int, subtotal: real, shipping: real, tax: real, total: real)

  function CartPage(items: seq<ClientLine>): (r: CartView)
    ensures r.EmptyState? <==> items == []
    ensures r.Summary? ==> r.total == r.subtotal + r.shipping + r.tax && r.subtotal == TotalPrice(items)
  {
    if items == [] then EmptyState
    else
      var s := TotalPrice(items);
      Summary(TotalItems(items), s, Shipping(s), Tax(s), Total(s))
  }

  /** The quantity the minus button asks for: one less, with no floor. */
  function DecrementRequest(line: ClientLine): int
  {
    line.quantity - 1
  }

  /** The cart edit the update endpoint makes for a requested quantity:
      removal at zero or below, else the found line's quantity is set. */
  function UpdateEdit(cart: seq<UserModel.CartLine>, product: ProductId, size: real, quantity: int)
    : (r: Option<seq<UserModel.CartLine>>)
    ensures quantity <= 0 ==> r == Some(CartLines.Remove(cart, product, size))
    ensures quantity > 0 ==> (r.None? <==> CartLines.Find(cart, product, size).None?)
  {
    if quantity <= 0 then Some(CartLines.Remove(cart, product, size))
    else
      match CartLines.Find(cart, product, size)
      case None => None
      case Some(k) => Some(CartLines.SetQuantity(cart, k, quantity))
  }

  /** Pressing minus on a line of one asks the server to remove the line:
      the returned cart has no line for that product and size. */
  lemma DecrementOfLastUnitRemoves(line: ClientLine, cart: seq<UserModel.CartLine>)
    requires line.quantity == 1
    ensures UpdateEdit(cart, line.product.id, line.size, DecrementRequest(line)).Some?
    ensures var after := UpdateEdit(cart, line.product.id, line.size, DecrementRequest(line)).value;
      forall j :: 0 <= j < |after| ==> !CartLines.Matches(after[j], line.product.id, line.size)
  {
    CartLines.RemoveDropsExactlyMatches(cart, line.product.id, line.size);
  }

  /** Pressing minus on a line of more than one lowers it by exactly one. */
  lemma DecrementLowersByOne(line: ClientLine, cart: seq<UserModel.CartLine>, k: nat)
    requires line.quantity > 1
    requires CartLines.OneLinePerKey(cart)
    requires k < |cart| && CartLines.Matches(cart[k], line.product.id, line.size)
    ensures UpdateEdit(cart, line.product.id, line.size, DecrementRequest(line))
         == Some(cart[k := cart[k].(quantity := line.quantity - 1)])
  {
    CartLines.FindUnique(cart, line.product.id, line.size, k);
  }
}
