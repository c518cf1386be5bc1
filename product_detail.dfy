// The product page: the quantity stepper, the related products shown under
// the product, the guards in front of add-to-cart, and the saving shown for
// a discounted product.

module ProductDetail {
  import opened Wrappers
  import opened ProductModel
  import CartContext
  import Seqs

  /** The stepper's minus button: one less, but never below 1. */
  function Decremented(q: int): (r: int)
    ensures r >= 1
    ensures q > 1 ==> r == q - 1
    ensures q <= 1 ==> r == 1
  {
    if q - 1 > 1 then q - 1 else 1
  }

  function Incremented(q: int): (r: int)
    ensures r > q
  {
    q + 1
  }

  /** From any quantity of at least 1, one step up and one step down come
      back to it; stepping down from 1 stays at 1. */
  lemma StepperRoundTrip(q: int)
    requires q >= 1
    ensures Decremented(Incremented(q)) == q
    ensures Decremented(1) == 1
  {
  }

  /** The page state the stepper and the size buttons change. */
  class DetailPage {
    var quantity: int
    var selectedSize: Option<real>

    predicate Valid()
      reads this
    {
      quantity >= 1
    }

    constructor()
      ensures quantity == 1 && selectedSize.None? && Valid()
    {
      quantity, selectedSize := 1, None;
    }

    method Decrement()
      modifies this
      requires Valid()
      ensures Valid() && quantity == Decremented(old(quantity))
      ensures selectedSize == old(selectedSize)
    {
      quantity := Decremented(quantity);
    }

    method Increment()
      modifies this
      requires Valid()
      ensures Valid() && quantity == Incremented(old(quantity))
      ensures selectedSize == old(selectedSize)
    {
      quantity := Incremented(quantity);
    }

    method SelectSize(size: real)
      modifies this
      ensures selectedSize == Some(size) && quantity == old(quantity)
    {
      selectedSize := Some(size);
    }
  }

  /** Another product of the same brand or the same category. */
  predicate IsRelated(p: Product, product: Product)
  {
    p.id != product.id && (p.brand == product.brand || p.category == product.category)
  }

  /** `relatedProducts`: the first four related products in list order. */
  function Related(products: seq<Product>, product: Product): (r: seq<Product>)
    ensures |r| <= 4
    ensures forall i :: 0 <= i < |r| ==> IsRelated(r[i], product)
    ensures r <= Seqs.Filter(products, (p: Product) => IsRelated(p, product))
  {
    Seqs.Take(Seqs.Filter(products, (p: Product) => IsRelated(p, product)), 4)
  }

  /** When at most four products are related, all of them are shown, and
      the product itself never is. */
  lemma FewRelatedAllShown(products: seq<Product>, product: Product)
    requires |Seqs.Filter(products, (p: Product) => IsRelated(p, product))| <= 4
    ensures forall i :: 0 <= i < |products| && IsRelated(products[i], product) ==> products[i] in Related(products, product)
    ensures product !in Related(products, product)
  {
  }

  /** What a click on the add button leads to. */
  datatype AddAction =
    | Disabled                          // out of stock: the button is disabled
    | RedirectToLogin                   // signed out: toast and go to login
    | AskForSize                        // no size chosen: toast only
    | Add(size: real, quantity: int)    // `addToCart(product, size, quantity)`

  /** `handleAddToCart` behind the button: a size of 0 counts as unchosen,
      since `!selectedSize` is true for it. */
  function ClickAdd(product: Product, isAuthenticated: bool, selectedSize: Option<real>, quantity: int): (r: AddAction)
    ensures r.Add? <==> product.inStock && isAuthenticated && selectedSize.Some? && selectedSize.value != 0.0
    ensures r.Add? ==> r.size == selectedSize.value && r.quantity == quantity
    ensures r == RedirectToLogin <==> product.inStock && !isAuthenticated
    ensures r == Disabled <==> !product.inStock
  {
    if !product.inStock then Disabled
    else if !isAuthenticated then RedirectToLogin
    else if selectedSize.None? || selectedSize.value == 0.0 then AskForSize
    else Add(selectedSize.value, quantity)
  }

  /** The request a successful click sends carries the product, the chosen
      size and the stepper's quantity, which is at least 1. */
  lemma AddSendsStepperQuantity(product: Product, isAuthenticated: bool, selectedSize: Option<real>, quantity: int)
    requires quantity >= 1
    requires ClickAdd(product, isAuthenticated, selectedSize, quantity).Add?
    ensures var a := ClickAdd(product, isAuthenticated, selectedSize, quantity);
      && CartContext.AddRequestOf(product, a.size, Some(a.quantity))
           == CartContext.AddRequest(product.id, selectedSize.value, quantity)
      && CartContext.AddRequestOf(product, a.size, Some(a.quantity)).quantity >= 1
  {
  }

  /** The "SAVE" badge: shown only for a truthy original price (present and
      not 0), with the difference to the price. */
  function Saving(product: Product): (r: Option<real>)
    ensures r.Some? <==> product.originalPrice.Some? && product.originalPrice.value != 0.0
    ensures r.Some? ==> r.value + product.price == product.originalPrice.value
  {
    if product.originalPrice.Some? && product.originalPrice.value != 0.0
    then Some(product.originalPrice.value - product.price)
    else None
  }
}
