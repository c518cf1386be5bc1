// The cart endpoints: each loads the caller's user document, edits its cart
// line list in place and saves it. Replies carry the saved cart; the
// `populate` of product documents into the lines is not modelled.

module CartController {
  import opened Wrappers
  import opened UserModel
  import opened Store
  import CartLines
  import ProductModel

  /** `quantity = 1` in the add endpoint's destructuring. */
  const DEFAULT_ADD_QUANTITY: int := 1

  /** The `findIndex` scan over the cart: the first line with the key, or -1. */
  method FindLineIndex(cart: seq<CartLine>, product: ProductModel.ProductId, size: real) returns (index: int)
    ensures -1 <= index < |cart|
    ensures index == -1 <==> CartLines.Find(cart, product, size).None?
    ensures index >= 0 ==> CartLines.Find(cart, product, size) == Some(index)
  {
    index := 0;
    while index < |cart|
      invariant 0 <= index <= |cart|
      invariant forall j :: 0 <= j < index ==> !CartLines.Matches(cart[j], product, size)
    {
      if CartLines.Matches(cart[index], product, size) {
        return;
      }
      index := index + 1;
    }
    index := -1;
  }

  /** GET /: the caller's cart. */
  method GetCart(db: Db, uid: UserId) returns (reply: Reply<seq<CartLine>>)
    requires db.Valid()
    ensures FindUser(db.users, uid).None? ==> reply == Respond(NOT_FOUND, "User not found")
    ensures FindUser(db.users, uid).Some? ==> reply == Done(OK, db.users[FindUser(db.users, uid).value].cart)
  {
    var ui := FindUser(db.users, uid);
    if ui.None? {
      return Respond(NOT_FOUND, "User not found");
    }
    reply := Done(OK, db.users[ui.value].cart);
  }

  /** The cart after adding: the matching line's quantity raised, or the
      new line appended. */
  method MergeLine(cart: seq<CartLine>, product: ProductModel.ProductId, size: real, q: int)
    returns (merged: seq<CartLine>)
    ensures merged == CartLines.Add(cart, product, size, q)
  {
    var index := FindLineIndex(cart, product, size);
    if index > -1 {
      merged := cart[index := cart[index].(quantity := cart[index].quantity + q)];
    } else {
      merged := cart + [CartLine(product, size, q)];
    }
  }

  /** POST /: add `quantity` (default 1) of a product in a size. A missing
      product is 404, an out-of-stock one 400; a line with the same product
      and size is merged into, otherwise a line is appended. A resulting
      quantity below 1 fails validation on save (500). */
  method AddToCart(db: Db, uid: UserId, product: ProductModel.ProductId, size: real, quantity: Option<int>)
    returns (reply: Reply<seq<CartLine>>)
    requires db.Valid()
    modifies db
    ensures db.Valid()
    ensures db.products == old(db.products) && db.orders == old(db.orders) && db.nextId == old(db.nextId)
    ensures reply.Respond? ==> db.users == old(db.users)
    ensures FindProduct(db.products, product).None? ==> reply == Respond(NOT_FOUND, "Product not found")
    ensures FindProduct(db.products, product).Some? && !db.products[FindProduct(db.products, product).value].inStock
      ==> reply == Respond(BAD_REQUEST, "Product out of stock")
    ensures reply.Done? ==>
      && FindProduct(db.products, product).Some?
      && db.products[FindProduct(db.products, product).value].inStock
      && FindUser(old(db.users), uid).Some?
      && (var i := FindUser(old(db.users), uid).value;
          var cart := CartLines.Add(old(db.users)[i].cart, product, size, GetOr(quantity, DEFAULT_ADD_QUANTITY));
          && CartValid(cart)
          && db.users == old(db.users)[i := old(db.users)[i].(cart := cart)]
          && reply == Done(OK, cart))
    ensures FindProduct(db.products, product).Some? && db.products[FindProduct(db.products, product).value].inStock
      && FindUser(old(db.users), uid).Some?
      ==> (reply.Done? <==>
            CartValid(CartLines.Add(old(db.users)[FindUser(old(db.users), uid).value].cart, product, size,
                                    GetOr(quantity, DEFAULT_ADD_QUANTITY))))
  {
    var q := GetOr(quantity, DEFAULT_ADD_QUANTITY);
    var pi := FindProduct(db.products, product);
    if pi.None? {
      return Respond(NOT_FOUND, "Product not found");
    }
    if !db.products[pi.value].inStock {
      return Respond(BAD_REQUEST, "Product out of stock");
    }
    var ui := FindUser(db.users, uid);
    if ui.None? {
      return Respond(NOT_FOUND, "User not found");
    }
    var user := db.users[ui.value];
    var cart := MergeLine(user.cart, product, size, q);
    if !CartValid(cart) {
      return Respond(SERVER_ERROR, "Server error");
    }
    CartLines.AddKeepsOneLinePerKey(user.cart, product, size, q);
    db.ReplaceUser(ui.value, user.(cart := cart));
    reply := Done(OK, cart);
  }

  /** DELETE /:productId: drop every line with the product and size; an
      absent line is a successful no-op (`RemoveAbsent`). */
  method RemoveFromCart(db: Db, uid: UserId, product: ProductModel.ProductId, size: real)
    returns (reply: Reply<seq<CartLine>>)
    requires db.Valid()
    modifies db
    ensures db.Valid()
    ensures db.products == old(db.products) && db.orders == old(db.orders) && db.nextId == old(db.nextId)
    ensures FindUser(old(db.users), uid).None? ==>
      reply == Respond(NOT_FOUND, "User not found") && db.users == old(db.users)
    ensures FindUser(old(db.users), uid).Some? ==>
      (var i := FindUser(old(db.users), uid).value;
       var cart := CartLines.Remove(old(db.users)[i].cart, product, size);
       db.users == old(db.users)[i := old(db.users)[i].(cart := cart)] && reply == Done(OK, cart))
  {
    var ui := FindUser(db.users, uid);
    if ui.None? {
      return Respond(NOT_FOUND, "User not found");
    }
    var user := db.users[ui.value];
    var cart := CartLines.Remove(user.cart, product, size);
    CartLines.RemoveKeepsOneLinePerKey(user.cart, product, size);
    CartLines.RemoveKeepsCartValid(user.cart, product, size);
    db.ReplaceUser(ui.value, user.(cart := cart));
    reply := Done(OK, cart);
  }

  /** PUT /:productId: a quantity of 0 or less is handed to the remove
      endpoint; otherwise the matching line's quantity is set to the new
      value, and a missing line is 404. */
  method UpdateCartItem(db: Db, uid: UserId, product: ProductModel.ProductId, size: real, quantity: int)
    returns (reply: Reply<seq<CartLine>>)
    requires db.Valid()
    modifies db
    ensures db.Valid()
    ensures db.products == old(db.products) && db.orders == old(db.orders) && db.nextId == old(db.nextId)
    ensures quantity <= 0 && FindUser(old(db.users), uid).None? ==>
      reply == Respond(NOT_FOUND, "User not found") && db.users == old(db.users)
    ensures quantity <= 0 && FindUser(old(db.users), uid).Some? ==>
      (var i := FindUser(old(db.users), uid).value;
       var cart := CartLines.Remove(old(db.users)[i].cart, product, size);
       db.users == old(db.users)[i := old(db.users)[i].(cart := cart)] && reply == Done(OK, cart))
    ensures quantity > 0 && FindUser(old(db.users), uid).None? ==>
      reply == Respond(NOT_FOUND, "User not found") && db.users == old(db.users)
    ensures quantity > 0 && FindUser(old(db.users), uid).Some? ==>
      (var i := FindUser(old(db.users), uid).value;
       var cart := old(db.users)[i].cart;
       match CartLines.Find(cart, product, size)
       case None => reply == Respond(NOT_FOUND, "Item not in cart") && db.users == old(db.users)
       case Some(k) =>
         && db.users == old(db.users)[i := old(db.users)[i].(cart := CartLines.SetQuantity(cart, k, quantity))]
         && reply == Done(OK, CartLines.SetQuantity(cart, k, quantity)))
  {
    if quantity <= 0 {
      reply := RemoveFromCart(db, uid, product, size);
      return;
    }
    var ui := FindUser(db.users, uid);
    if ui.None? {
      return Respond(NOT_FOUND, "User not found");
    }
    var user := db.users[ui.value];
    var index := FindLineIndex(user.cart, product, size);
    if index == -1 {
      return Respond(NOT_FOUND, "Item not in cart");
    }
    var cart := CartLines.SetQuantity(user.cart, index, quantity);
    CartLines.SetQuantityOnlyThatLine(user.cart, index, quantity);
    db.ReplaceUser(ui.value, user.(cart := cart));
    reply := Done(OK, cart);
  }

  /** DELETE /: empty the cart. */
  method ClearCart(db: Db, uid: UserId) returns (reply: Reply<seq<CartLine>>)
    requires db.Valid()
    modifies db
    ensures db.Valid()
    ensures db.products == old(db.products) && db.orders == old(db.orders) && db.nextId == old(db.nextId)
    ensures FindUser(old(db.users), uid).None? ==>
      reply == Respond(NOT_FOUND, "User not found") && db.users == old(db.users)
    ensures FindUser(old(db.users), uid).Some? ==>
      (var i := FindUser(old(db.users), uid).value;
       db.users == old(db.users)[i := old(db.users)[i].(cart := [])] && reply == Done(OK, []))
  {
    var ui := FindUser(db.users, uid);
    if ui.None? {
      return Respond(NOT_FOUND, "User not found");
    }
    var user := db.users[ui.value];
    db.ReplaceUser(ui.value, user.(cart := []));
    reply := Done(OK, []);
  }
}
