// A user's cart as a list of (product, size, quantity) lines: the lookup
// that finds a line, and the four edits the cart endpoints make, with what
// each keeps and changes.

module CartLines {
  import opened Wrappers
  import opened UserModel
  import ProductModel
  import Seqs

  /** What identifies a line: the product and the size. */
  datatype LineKey = LineKey(product: ProductModel.ProductId, size: real)

  function KeyOf(line: CartLine): LineKey
  {
    LineKey(line.product, line.size)
  }

  /** The invariant the endpoints keep: at most one line per key. */
  ghost predicate OneLinePerKey(cart: seq<CartLine>)
  {
    Seqs.DistinctBy(cart, KeyOf)
  }

  /** `item.product.toString() === productId && item.size === size`. */
  predicate Matches(line: CartLine, product: ProductModel.ProductId, size: real)
  {
    line.product == product && line.size == size
  }

  /** `cart.findIndex(...)` for a key, with None for -1: the first matching line. */
  function Find(cart: seq<CartLine>, product: ProductModel.ProductId, size: real): (r: Option<nat>)
    ensures r.Some? ==> r.value < |cart| && Matches(cart[r.value], product, size)
    ensures r.Some? ==> forall j :: 0 <= j < r.value ==> !Matches(cart[j], product, size)
    ensures r.None? <==> forall j :: 0 <= j < |cart| ==> !Matches(cart[j], product, size)
  {
    if cart == [] then None
    else if Matches(cart[0], product, size) then Some(0)
    else
      var rest := Find(cart[1..], product, size);
      if rest.Some? then Some(rest.value + 1) else None
  }

  /** With one line per key, any matching line is the one `Find` returns. */
  lemma FindUnique(cart: seq<CartLine>, product: ProductModel.ProductId, size: real, i: nat)
    requires OneLinePerKey(cart)
    requires i < |cart| && Matches(cart[i], product, size)
    ensures Find(cart, product, size) == Some(i)
  {
    var r := Find(cart, product, size);
    assert KeyOf(cart[r.value]) == KeyOf(cart[i]);
  }

  /** The add endpoint's edit: merge into the matching line, else append. */
  function Add(cart: seq<CartLine>, product: ProductModel.ProductId, size: real, quantity: int): seq<CartLine>
  {
    match Find(cart, product, size)
    case Some(i) => cart[i := cart[i].(quantity := cart[i].quantity + quantity)]
    case None => cart + [CartLine(product, size, quantity)]
  }

  /** The update endpoint's edit on a found line: the quantity is set, not added. */
  function SetQuantity(cart: seq<CartLine>, i: nat, quantity: int): seq<CartLine>
    requires i < |cart|
  {
    cart[i := cart[i].(quantity := quantity)]
  }

  /** The remove endpoint's edit: drop every matching line. */
  function Remove(cart: seq<CartLine>, product: ProductModel.ProductId, size: real): seq<CartLine>
  {
    Seqs.Filter(cart, line => !Matches(line, product, size))
  }

  /** Sum of the quantities: the number of items in the cart. */
  function TotalQuantity(cart: seq<CartLine>): int
  {
    if cart == [] then 0 else cart[0].quantity + TotalQuantity(cart[1..])
  }

  /** Adding a key that has a line increases that line's quantity by the
      requested amount and changes no other line. */
  lemma {:induction false} AddMerges(cart: seq<CartLine>, product: ProductModel.ProductId, size: real, quantity: int, i: nat)
    requires OneLinePerKey(cart)
    requires i < |cart| && Matches(cart[i], product, size)
    ensures |Add(cart, product, size, quantity)| == |cart|
    ensures Add(cart, product, size, quantity)[i] == cart[i].(quantity := cart[i].quantity + quantity)
    ensures forall j :: 0 <= j < |cart| && j != i ==> Add(cart, product, size, quantity)[j] == cart[j]
  {
    FindUnique(cart, product, size, i);
  }

  /** Adding a key without a line appends exactly one line at the end. */
  lemma AddAppends(cart: seq<CartLine>, product: ProductModel.ProductId, size: real, quantity: int)
    requires forall j :: 0 <= j < |cart| ==> !Matches(cart[j], product, size)
    ensures Add(cart, product, size, quantity) == cart + [CartLine(product, size, quantity)]
  {
  }

  lemma {:induction false} AddKeepsOneLinePerKey(cart: seq<CartLine>, product: ProductModel.ProductId, size: real, quantity: int)
    requires OneLinePerKey(cart)
    ensures OneLinePerKey(Add(cart, product, size, quantity))
  {
    match Find(cart, product, size)
    case Some(i) =>
      Seqs.ReplaceKeepsDistinct(cart, i, cart[i].(quantity := cart[i].quantity + quantity), KeyOf);
    case None =>
      Seqs.AppendKeepsDistinct(cart, CartLine(product, size, quantity), KeyOf);
  }

  /** Adding q items raises the item count by exactly q. */
  lemma {:induction false} AddTotal(cart: seq<CartLine>, product: ProductModel.ProductId, size: real, quantity: int)
    ensures TotalQuantity(Add(cart, product, size, quantity)) == TotalQuantity(cart) + quantity
  {
    match Find(cart, product, size)
    case Some(i) =>
      TotalReplace(cart, i, cart[i].(quantity := cart[i].quantity + quantity));
    case None =>
      TotalAppend(cart, CartLine(product, size, quantity));
  }

  lemma {:induction false} TotalAppend(cart: seq<CartLine>, line: CartLine)
    ensures TotalQuantity(cart + [line]) == TotalQuantity(cart) + line.quantity
  {
    if cart != [] {
      assert (cart + [line])[1..] == cart[1..] + [line];
      TotalAppend(cart[1..], line);
    }
  }

  lemma {:induction false} TotalReplace(cart: seq<CartLine>, i: nat, line: CartLine)
    requires i < |cart|
    ensures TotalQuantity(cart[i := line]) == TotalQuantity(cart) - cart[i].quantity + line.quantity
  {
    if i > 0 {
      assert cart[i := line][1..] == cart[1..][i - 1 := line];
      TotalReplace(cart[1..], i - 1, line);
    }
  }

  /** Setting a found line's quantity changes that line only, and keeps the
      one-line-per-key invariant. */
  lemma SetQuantityOnlyThatLine(cart: seq<CartLine>, i: nat, quantity: int)
    requires i < |cart| && OneLinePerKey(cart)
    ensures OneLinePerKey(SetQuantity(cart, i, quantity))
    ensures SetQuantity(cart, i, quantity)[i].quantity == quantity
    ensures KeyOf(SetQuantity(cart, i, quantity)[i]) == KeyOf(cart[i])
    ensures forall j :: 0 <= j < |cart| && j != i ==> SetQuantity(cart, i, quantity)[j] == cart[j]
  {
    Seqs.ReplaceKeepsDistinct(cart, i, cart[i].(quantity := quantity), KeyOf);
  }

  /** Removing drops every matching line and keeps every other line. */
  lemma RemoveDropsExactlyMatches(cart: seq<CartLine>, product: ProductModel.ProductId, size: real)
    ensures forall j :: 0 <= j < |Remove(cart, product, size)| ==> !Matches(Remove(cart, product, size)[j], product, size)
    ensures forall j :: 0 <= j < |cart| && !Matches(cart[j], product, size) ==> cart[j] in Remove(cart, product, size)
    ensures forall j :: 0 <= j < |Remove(cart, product, size)| ==> Remove(cart, product, size)[j] in cart
  {
  }

  /** Removing a key that has no line is a no-op. */
  lemma RemoveAbsent(cart: seq<CartLine>, product: ProductModel.ProductId, size: real)
    requires Find(cart, product, size).None?
    ensures Remove(cart, product, size) == cart
  {
    Seqs.FilterAll(cart, line => !Matches(line, product, size));
  }

  lemma RemoveKeepsOneLinePerKey(cart: seq<CartLine>, product: ProductModel.ProductId, size: real)
    requires OneLinePerKey(cart)
    ensures OneLinePerKey(Remove(cart, product, size))
  {
    Seqs.FilterKeepsDistinct(cart, line => !Matches(line, product, size), KeyOf);
  }

  lemma RemoveKeepsCartValid(cart: seq<CartLine>, product: ProductModel.ProductId, size: real)
    requires CartValid(cart)
    ensures CartValid(Remove(cart, product, size))
  {
  }
}
