// The client's cart state: the lines shown, replaced by the server's cart
// after every successful call and kept as they were after a failed one.
// Each API call is a function parameter giving the server's cart, or None
// when the request fails.

module CartContext {
  import opened Wrappers
  import opened ProductModel
  import opened Pricing

  /** The body of the add request; the quantity defaults to 1. */
  datatype AddRequest = AddRequest(productId: ProductId, size: real, quantity: int)

  function AddRequestOf(product: Product, size: real, quantity: Option<int>): (r: AddRequest)
    ensures r.productId == product.id && r.size == size
    ensures quantity.None? ==> r.quantity == 1
    ensures quantity.Some? ==> r.quantity == quantity.value
  {
    AddRequest(product.id, size, GetOr(quantity, 1))
  }

  class CartState {
    var items: seq<ClientLine>
    var loading: bool

    constructor()
      ensures items == [] && loading
    {
      items, loading := [], true;
    }

    /** The fetch on mount: the server's cart (or [] when the reply has
        none), [] when the request fails; loading ends either way. */
    method FetchCart(reply: Option<Option<seq<ClientLine>>>)
      modifies this
      ensures items == (if reply.Some? && reply.value.Some? then reply.value.value else [])
      ensures !loading
    {
      if reply.Some? {
        items := GetOr(reply.value, []);
      } else {
        items := [];
      }
      loading := false;
    }

    method AddToCart(product: Product, size: real, quantity: Option<int>,
                     post: AddRequest -> Option<seq<ClientLine>>) returns (ok: bool)
      modifies this
      ensures var reply := post(AddRequestOf(product, size, quantity));
        && (ok <==> reply.Some?)
        && items == (if reply.Some? then reply.value else old(items))
      ensures loading == old(loading)
    {
      var reply := post(AddRequestOf(product, size, quantity));
      if reply.Some? {
        items := reply.value;
      }
      ok := reply.Some?;
    }

    method RemoveFromCart(productId: ProductId, size: real,
                          delete: (ProductId, real) -> Option<seq<ClientLine>>) returns (ok: bool)
      modifies this
      ensures var reply := delete(productId, size);
        && (ok <==> reply.Some?)
        && items == (if reply.Some? then reply.value else old(items))
      ensures loading == old(loading)
    {
      var reply := delete(productId, size);
      if reply.Some? {
        items := reply.value;
      }
      ok := reply.Some?;
    }

    method UpdateQuantity(productId: ProductId, size: real, quantity: int,
                          put: (ProductId, real, int) -> Option<seq<ClientLine>>) returns (ok: bool)
      modifies this
      ensures var reply := put(productId, size, quantity);
        && (ok <==> reply.Some?)
        && items == (if reply.Some? then reply.value else old(items))
      ensures loading == old(loading)
    {
      var reply := put(productId, size, quantity);
      if reply.Some? {
        items := reply.value;
      }
      ok := reply.Some?;
    }

    /** Clear empties the lines only when the server call succeeds. */
    method ClearCart(succeeded: bool)
      modifies this
      ensures items == (if succeeded then [] else old(items))
      ensures loading == old(loading)
    {
      if succeeded {
        items := [];
      }
    }
  }
}
