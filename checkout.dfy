// The checkout page: the form, the shipping address it formats, the name
// the payment dialog is prefilled with, and `handlePayment`, the sequence of
// requests from the order to the cleared cart. The server's and the
// gateway's answers are function parameters; the requests made are returned
// as a list of calls, in order.

module Checkout {
  import opened Wrappers
  import opened Text
  import opened OrderModel
  import opened Pricing
  import OrderController
  import AuthController

  datatype CheckoutForm = CheckoutForm(
    email: string, firstName: string, lastName: string,
    address: string, city: string, state: string, zipCode: string, phone: string)

  /** The form's first state: the signed-in user's email and names, every
      other field empty. */
  function InitialForm(user: Option<AuthController.Profile>): (r: CheckoutForm)
    ensures r.address == "" && r.city == "" && r.state == "" && r.zipCode == "" && r.phone == ""
    ensures user.Some? ==> r.email == user.value.email && r.firstName == user.value.firstName
                           && r.lastName == user.value.lastName
    ensures user.None? ==> r.email == "" && r.firstName == "" && r.lastName == ""
  {
    if user.Some? then CheckoutForm(user.value.email, user.value.firstName, user.value.lastName, "", "", "", "", "")
    else CheckoutForm("", "", "", "", "", "", "", "")
  }

  /** The four address fields payment insists on. */
  predicate AddressComplete(f: CheckoutForm)
  {
    f.address != "" && f.city != "" && f.state != "" && f.zipCode != ""
  }

  /** The freshly opened form never passes the address check. */
  lemma InitialFormIncomplete(user: Option<AuthController.Profile>)
    ensures !AddressComplete(InitialForm(user))
  {
  }

  /** "address, city, state zip". */
  function ShippingAddress(f: CheckoutForm): (r: string)
    ensures AddressComplete(f) ==> r != ""
  {
    f.address + ", " + f.city + ", " + f.state + " " + f.zipCode
  }

  /** Split at its commas, the formatted address gives back the street, the
      city and "state zip" (each after the first with its leading space),
      provided the fields have no commas of their own. */
  lemma {:induction false} ShippingAddressParts(f: CheckoutForm)
    requires ',' !in f.address && ',' !in f.city && ',' !in f.state && ',' !in f.zipCode
    ensures Split(ShippingAddress(f), ',') == [f.address, " " + f.city, " " + f.state + " " + f.zipCode]
  {
    var tail := " " + f.state + " " + f.zipCode;
    assert ',' !in tail;
    SplitWithout(tail, ',');
    var middle := " " + f.city;
    assert ',' !in middle;
    SplitAtSeparator(middle, ',', tail);
    assert ShippingAddress(f) == f.address + [','] + (middle + [','] + tail);
    SplitAtSeparator(f.address, ',', middle + [','] + tail);
  }

  /** The prefilled name: the trimmed "first last", or "Customer". */
  function PrefillName(f: CheckoutForm): (r: string)
    ensures r != ""
  {
    var full := Trim(f.firstName + " " + f.lastName);
    if full != "" then full else "Customer"
  }

  /** The payment dialog shows the name the server stores on the order. */
  lemma PrefillIsPurchaserName(f: CheckoutForm)
    ensures PrefillName(f) == OrderController.PurchaserName(f.firstName, f.lastName)
  {
  }

  const PAYMENT_METHOD := "razorpay"

  /** The body of `POST /orders`. */
  datatype OrderRequest = OrderRequest(items: seq<LineItem>, shippingAddress: string, total: real, paymentMethod: string)

  /** The order request for the cart: its lines, the formatted address and
      the displayed total, shipping and tax included. */
  function OrderRequestOf(items: seq<ClientLine>, f: CheckoutForm): (r: OrderRequest)
    ensures r.items == OrderLines(items) && r.shippingAddress == ShippingAddress(f)
    ensures r.total == TotalPrice(items) + Shipping(TotalPrice(items)) + Tax(TotalPrice(items))
  {
    OrderRequest(OrderLines(items), ShippingAddress(f), Total(TotalPrice(items)), PAYMENT_METHOD)
  }

  /** The created order as the client uses it: its document id and its
      human-readable id. */
  datatype CreatedOrder = CreatedOrder(key: OrderKey, orderId: string)

  datatype PaymentResult = Paid(paymentId: string) | Failed

  /** The requests `handlePayment` makes. */
  datatype Call =
    | PostOrder(request: OrderRequest)
    | PostGatewayOrder(amount: real)
    | OpenGateway(amount: real, gatewayOrderId: string, description: string, name: string, email: string, contact: string)
    | PatchPayment(key: OrderKey, paymentId: string)
    | ClearCart

  /** The gateway is asked for the displayed total in both steps. */
  predicate ChargesTotal(c: Call, total: real)
  {
    (c.PostGatewayOrder? ==> c.amount == total) && (c.OpenGateway? ==> c.amount == total)
  }

  /** The gateway accepts every checkout amount: a cart never totals less
      than the 10 shipping fee or, from 100 on, its tax. */
  lemma CheckoutAmountAccepted(items: seq<ClientLine>)
    requires forall i :: 0 <= i < |items| ==> items[i].quantity >= 1 && items[i].product.price >= 0.0
    ensures OrderController.GatewayAmount(Some(Total(TotalPrice(items)))).Some?
  {
    TotalsNonNegative(items);
  }

  class CheckoutPage {
    var isProcessing: bool

    constructor()
      ensures !isProcessing
    {
      isProcessing := false;
    }

    /** `handlePayment`, run from the pay button (disabled while a payment
        is processing). With an empty cart or an incomplete address nothing
        is requested and the flag is left alone; otherwise the flag is raised
        for the requests and is down again however they end. */
    method HandlePayment(items: seq<ClientLine>, form: CheckoutForm,
                         postOrder: OrderRequest -> Option<CreatedOrder>,
                         postGateway: real -> Option<string>,
                         pay: (real, string) -> PaymentResult,
                         patchPayment: (OrderKey, string) -> bool)
      returns (calls: seq<Call>)
      modifies this
      ensures items == [] || !AddressComplete(form) ==> calls == [] && isProcessing == old(isProcessing)
      ensures items != [] && AddressComplete(form) ==> !isProcessing
      ensures items != [] && AddressComplete(form) ==>
        calls == Requests(OrderRequestOf(items, form), Total(TotalPrice(items)), form,
                          postOrder, postGateway, pay, patchPayment)
    {
      if |items| == 0 {
        return [];
      }
      if form.address == "" || form.city == "" || form.state == "" || form.zipCode == "" {
        return [];
      }
      isProcessing := true;
      calls := PaymentRequests(OrderRequestOf(items, form), Total(TotalPrice(items)), form, postOrder, postGateway, pay, patchPayment);
      isProcessing := false;
    }
  }

  /** The `try` block of `handlePayment`: the order, the gateway order, the
      payment dialog, then (on a successful payment) its confirmation and
      (once confirmed) the cart clear. A failed request (None) or a failed
      payment ends the sequence. */
  function Requests(request: OrderRequest, total: real, form: CheckoutForm,
                    postOrder: OrderRequest -> Option<CreatedOrder>,
                    postGateway: real -> Option<string>,
                    pay: (real, string) -> PaymentResult,
                    patchPayment: (OrderKey, string) -> bool): (r: seq<Call>)
    ensures 1 <= |r| <= 5 && r[0] == PostOrder(request)
  {
    var order := postOrder(request);
    [PostOrder(request)]
      + if order.None? then [] else AfterOrder(order.value, total, form, postGateway, pay, patchPayment)
  }

  /** The requests once the order is created. */
  function AfterOrder(order: CreatedOrder, total: real, form: CheckoutForm,
                      postGateway: real -> Option<string>,
                      pay: (real, string) -> PaymentResult,
                      patchPayment: (OrderKey, string) -> bool): (r: seq<Call>)
    ensures 1 <= |r| <= 4 && r[0] == PostGatewayOrder(total)
    ensures |r| >= 2 <==> postGateway(total).Some?
    ensures |r| >= 2 ==> r[1..] == AfterGatewayOrder(order, total, postGateway(total).value, form, pay, patchPayment)
  {
    var gatewayOrderId := postGateway(total);
    [PostGatewayOrder(total)]
      + if gatewayOrderId.None? then []
        else AfterGatewayOrder(order, total, gatewayOrderId.value, form, pay, patchPayment)
  }

  /** The requests once the gateway order exists: the dialog, then what the
      payment leads to. */
  function AfterGatewayOrder(order: CreatedOrder, total: real, gatewayOrderId: string, form: CheckoutForm,
                             pay: (real, string) -> PaymentResult,
                             patchPayment: (OrderKey, string) -> bool): (r: seq<Call>)
    ensures 1 <= |r| <= 3
    ensures r[0] == OpenGateway(total, gatewayOrderId, "Order " + order.orderId, PrefillName(form), form.email, form.phone)
    ensures |r| >= 2 <==> pay(total, gatewayOrderId).Paid?
    ensures |r| >= 2 ==> r[1..] == AfterPayment(order.key, pay(total, gatewayOrderId).paymentId, patchPayment)
  {
    var result := pay(total, gatewayOrderId);
    [OpenGateway(total, gatewayOrderId, "Order " + order.orderId, PrefillName(form), form.email, form.phone)]
      + if result.Failed? then [] else AfterPayment(order.key, result.paymentId, patchPayment)
  }

  /** The requests once the dialog reported the payment: its confirmation,
      then the cart clear if the confirmation succeeded. */
  function AfterPayment(key: OrderKey, paymentId: string, patchPayment: (OrderKey, string) -> bool): (r: seq<Call>)
    ensures 1 <= |r| <= 2 && r[0] == PatchPayment(key, paymentId)
    ensures |r| == 2 <==> patchPayment(key, paymentId)
    ensures |r| == 2 ==> r[1] == ClearCart
  {
    [PatchPayment(key, paymentId)] + if patchPayment(key, paymentId) then [ClearCart] else []
  }

  /** A request as the checkout makes it: gateway steps for the total, the
      dialog prefilled with the purchaser's name, email and phone. */
  predicate Proper(c: Call, total: real, form: CheckoutForm)
  {
    ChargesTotal(c, total)
    && (c.OpenGateway? ==> c.name == PrefillName(form) && c.email == form.email && c.contact == form.phone)
  }

  predicate AllProper(calls: seq<Call>, total: real, form: CheckoutForm)
  {
    forall i :: 0 <= i < |calls| ==> Proper(calls[i], total, form)
  }

  lemma {:induction false} AllProperConcat(a: seq<Call>, b: seq<Call>, total: real, form: CheckoutForm)
    requires AllProper(a, total, form) && AllProper(b, total, form)
    ensures AllProper(a + b, total, form)
  {
    forall i | 0 <= i < |a + b| ensures Proper((a + b)[i], total, form) {
      if i >= |a| {
        assert (a + b)[i] == b[i - |a|];
      }
    }
  }

  lemma AfterPaymentProper(key: OrderKey, paymentId: string, patchPayment: (OrderKey, string) -> bool,
                            total: real, form: CheckoutForm)
    ensures AllProper(AfterPayment(key, paymentId, patchPayment), total, form)
  {
  }

  lemma {:induction false} AfterGatewayOrderProper(order: CreatedOrder, total: real, gatewayOrderId: string,
                                                   form: CheckoutForm, pay: (real, string) -> PaymentResult,
                                                   patchPayment: (OrderKey, string) -> bool)
    ensures AllProper(AfterGatewayOrder(order, total, gatewayOrderId, form, pay, patchPayment), total, form)
  {
    var open := OpenGateway(total, gatewayOrderId, "Order " + order.orderId, PrefillName(form), form.email, form.phone);
    assert AllProper([open], total, form);
    var result := pay(total, gatewayOrderId);
    if result.Paid? {
      AfterPaymentProper(order.key, result.paymentId, patchPayment, total, form);
      AllProperConcat([open], AfterPayment(order.key, result.paymentId, patchPayment), total, form);
    }
  }

  lemma {:induction false} AfterOrderProper(order: CreatedOrder, total: real, form: CheckoutForm,
                                            postGateway: real -> Option<string>,
                                            pay: (real, string) -> PaymentResult,
                                            patchPayment: (OrderKey, string) -> bool)
    ensures AllProper(AfterOrder(order, total, form, postGateway, pay, patchPayment), total, form)
  {
    assert AllProper([PostGatewayOrder(total)], total, form);
    var gatewayOrderId := postGateway(total);
    if gatewayOrderId.Some? {
      AfterGatewayOrderProper(order, total, gatewayOrderId.value, form, pay, patchPayment);
      AllProperConcat([PostGatewayOrder(total)],
                      AfterGatewayOrder(order, total, gatewayOrderId.value, form, pay, patchPayment), total, form);
    }
  }

  /** Both gateway steps are for the displayed total, and the dialog is
      prefilled with the purchaser's name, email and phone. */
  lemma {:induction false} RequestsChargeTotal(request: OrderRequest, total: real, form: CheckoutForm,
                                               postOrder: OrderRequest -> Option<CreatedOrder>,
                                               postGateway: real -> Option<string>,
                                               pay: (real, string) -> PaymentResult,
                                               patchPayment: (OrderKey, string) -> bool)
    ensures AllProper(Requests(request, total, form, postOrder, postGateway, pay, patchPayment), total, form)
  {
    assert AllProper([PostOrder(request)], total, form);
    var order := postOrder(request);
    if order.Some? {
      AfterOrderProper(order.value, total, form, postGateway, pay, patchPayment);
      AllProperConcat([PostOrder(request)], AfterOrder(order.value, total, form, postGateway, pay, patchPayment), total, form);
    }
  }

  /** The confirmation is requested exactly when the order, the gateway
      order and the payment all succeeded (a failed payment is never
      confirmed), and it confirms the created order with the payment's id. */
  lemma RequestsConfirmOnlyPaid(request: OrderRequest, total: real, form: CheckoutForm,
                                postOrder: OrderRequest -> Option<CreatedOrder>,
                                postGateway: real -> Option<string>,
                                pay: (real, string) -> PaymentResult,
                                patchPayment: (OrderKey, string) -> bool)
    ensures var r := Requests(request, total, form, postOrder, postGateway, pay, patchPayment);
      |r| >= 4 <==> postOrder(request).Some? && postGateway(total).Some? && pay(total, postGateway(total).value).Paid?
    ensures var r := Requests(request, total, form, postOrder, postGateway, pay, patchPayment);
      |r| >= 4 ==> r[3] == PatchPayment(postOrder(request).value.key, pay(total, postGateway(total).value).paymentId)
  {
    var r := Requests(request, total, form, postOrder, postGateway, pay, patchPayment);
    if postOrder(request).Some? {
      var order := postOrder(request).value;
      var a := AfterOrder(order, total, form, postGateway, pay, patchPayment);
      assert r[1..] == a;
      if postGateway(total).Some? {
        var g := AfterGatewayOrder(order, total, postGateway(total).value, form, pay, patchPayment);
        assert r[2..] == g;
      }
    }
  }

  /** The cart is cleared exactly when the confirmation succeeded, as the
      last request. */
  lemma RequestsClearOnlyConfirmed(request: OrderRequest, total: real, form: CheckoutForm,
                                   postOrder: OrderRequest -> Option<CreatedOrder>,
                                   postGateway: real -> Option<string>,
                                   pay: (real, string) -> PaymentResult,
                                   patchPayment: (OrderKey, string) -> bool)
    ensures var r := Requests(request, total, form, postOrder, postGateway, pay, patchPayment);
      |r| == 5 <==> |r| >= 4 && r[3].PatchPayment? && patchPayment(r[3].key, r[3].paymentId)
    ensures var r := Requests(request, total, form, postOrder, postGateway, pay, patchPayment);
      |r| == 5 ==> r[4] == ClearCart
  {
    var r := Requests(request, total, form, postOrder, postGateway, pay, patchPayment);
    if postOrder(request).Some? && postGateway(total).Some? {
      var order := postOrder(request).value;
      var g := AfterGatewayOrder(order, total, postGateway(total).value, form, pay, patchPayment);
      assert r[2..] == g by {
        assert r[1..] == AfterOrder(order, total, form, postGateway, pay, patchPayment);
      }
      if pay(total, postGateway(total).value).Paid? {
        assert r[3..] == AfterPayment(order.key, pay(total, postGateway(total).value).paymentId, patchPayment);
      }
    }
  }

  /** The requests, made one after another: each answer decides whether the
      next request is made. */
  method PaymentRequests(request: OrderRequest, total: real, form: CheckoutForm,
                         postOrder: OrderRequest -> Option<CreatedOrder>,
                         postGateway: real -> Option<string>,
                         pay: (real, string) -> PaymentResult,
                         patchPayment: (OrderKey, string) -> bool)
    returns (calls: seq<Call>)
    ensures calls == Requests(request, total, form, postOrder, postGateway, pay, patchPayment)
  {
    calls := [PostOrder(request)];
    var order := postOrder(request);
    if order.Some? {
      var rest := RequestGatewayOrder(order.value, total, form, postGateway, pay, patchPayment);
      calls := calls + rest;
    }
  }

  /** `POST /orders/create-razorpay` for the total, and what follows it. */
  method RequestGatewayOrder(order: CreatedOrder, total: real, form: CheckoutForm,
                             postGateway: real -> Option<string>,
                             pay: (real, string) -> PaymentResult,
                             patchPayment: (OrderKey, string) -> bool)
    returns (calls: seq<Call>)
    ensures calls == AfterOrder(order, total, form, postGateway, pay, patchPayment)
  {
    calls := [PostGatewayOrder(total)];
    var gatewayOrderId := postGateway(total);
    if gatewayOrderId.Some? {
      var rest := OpenPaymentDialog(order, total, gatewayOrderId.value, form, pay, patchPayment);
      calls := calls + rest;
    }
  }

  /** The payment dialog and, on success, its handler. */
  method OpenPaymentDialog(order: CreatedOrder, total: real, gatewayOrderId: string, form: CheckoutForm,
                           pay: (real, string) -> PaymentResult,
                           patchPayment: (OrderKey, string) -> bool)
    returns (calls: seq<Call>)
    ensures calls == AfterGatewayOrder(order, total, gatewayOrderId, form, pay, patchPayment)
  {
    calls := [OpenGateway(total, gatewayOrderId, "Order " + order.orderId, PrefillName(form), form.email, form.phone)];
    var result := pay(total, gatewayOrderId);
    if result.Paid? {
      var rest := ConfirmPayment(order.key, result.paymentId, patchPayment);
      calls := calls + rest;
    }
  }

  /** The success handler: confirm the payment, then clear the cart. */
  method ConfirmPayment(key: OrderKey, paymentId: string, patchPayment: (OrderKey, string) -> bool)
    returns (calls: seq<Call>)
    ensures calls == AfterPayment(key, paymentId, patchPayment)
  {
    calls := [PatchPayment(key, paymentId)];
    if patchPayment(key, paymentId) {
      calls := calls + [ClearCart];
    }
  }
}
