// The client's product list: fetched once, then kept in step with the
// admin's edits by three list updates (prepend the created product,
// replace by id, remove by id) applied only after the server succeeds.

module ProductContext {
  import opened Wrappers
  import opened ProductModel
  import Seqs
  import Store

  /** `[created, ...prev]`. */
  function Prepend(p: Product, products: seq<Product>): (r: seq<Product>)
    ensures |r| == |products| + 1 && r[0] == p && r[1..] == products
  {
    [p] + products
  }

  /** `prev.map(p => p._id === id ? updated : p)`. */
  function ReplaceById(products: seq<Product>, id: ProductId, updated: Product): (r: seq<Product>)
    ensures |r| == |products|
    ensures forall i :: 0 <= i < |products| && products[i].id != id ==> r[i] == products[i]
    ensures forall i :: 0 <= i < |products| && products[i].id == id ==> r[i] == updated
  {
    Seqs.Map(products, (p: Product) => if p.id == id then updated else p)
  }

  /** `prev.filter(p => p._id !== id)`. */
  function RemoveById(products: seq<Product>, id: ProductId): (r: seq<Product>)
    ensures forall i :: 0 <= i < |r| ==> r[i].id != id
    ensures forall i :: 0 <= i < |products| && products[i].id != id ==> products[i] in r
  {
    Seqs.Filter(products, (p: Product) => p.id != id)
  }

  /** Removing a product just added, whose id was not in the list, gives the
      list back. */
  lemma RemoveUndoesPrepend(p: Product, products: seq<Product>)
    requires forall i :: 0 <= i < |products| ==> products[i].id != p.id
    ensures RemoveById(Prepend(p, products), p.id) == products
  {
    var xs := Prepend(p, products);
    assert xs[1..] == products;
    Seqs.FilterAll(products, (q: Product) => q.id != p.id);
  }

  /** The list the server gives is newest first; prepending what the server
      just stored keeps the client's list equal to that listing. */
  lemma PrependKeepsNewestFirst(stored: seq<Product>, p: Product)
    ensures Prepend(p, Seqs.Reverse(stored)) == Seqs.Reverse(stored + [p])
  {
  }

  /** With ids unique, replacing by id is the server's in-place update of
      the one product found. */
  lemma ReplaceByIdMirrorsServer(products: seq<Product>, id: ProductId, updated: Product)
    requires Seqs.DistinctBy(products, (p: Product) => p.id)
    requires Store.FindProduct(products, id).Some?
    ensures ReplaceById(products, id, updated)
         == products[Store.FindProduct(products, id).value := updated]
  {
  }

  /** `getProduct`: null exactly when the server did not answer with a
      product, and otherwise the product it sent. */
  function GetProduct(reply: Reply<Product>): (r: Option<Product>)
    ensures r.None? <==> reply.Respond?
    ensures reply.Done? ==> r == Some(reply.body)
  {
    if reply.Done? then Some(reply.body) else None
  }

  class ProductState {
    var products: seq<Product>
    var loading: bool

    constructor()
      ensures products == [] && loading
    {
      products, loading := [], true;
    }

    /** A successful fetch replaces the list; a failed one keeps it. */
    method FetchProducts(reply: Option<seq<Product>>)
      modifies this
      ensures products == (if reply.Some? then reply.value else old(products))
      ensures !loading
    {
      loading := true;
      if reply.Some? {
        products := reply.value;
      }
      loading := false;
    }

    /** On success the created product goes first; on failure the list is
        kept and the error goes back to the caller. */
    method AddProduct(reply: Option<Product>) returns (thrown: bool)
      modifies this
      ensures thrown <==> reply.None?
      ensures products == (if reply.Some? then Prepend(reply.value, old(products)) else old(products))
      ensures loading == old(loading)
    {
      if reply.None? {
        return true;
      }
      products := Prepend(reply.value, products);
      thrown := false;
    }

    method UpdateProduct(id: ProductId, reply: Option<Product>) returns (thrown: bool)
      modifies this
      ensures thrown <==> reply.None?
      ensures products == (if reply.Some? then ReplaceById(old(products), id, reply.value) else old(products))
      ensures loading == old(loading)
    {
      if reply.None? {
        return true;
      }
      products := ReplaceById(products, id, reply.value);
      thrown := false;
    }

    method DeleteProduct(id: ProductId, succeeded: bool) returns (thrown: bool)
      modifies this
      ensures thrown <==> !succeeded
      ensures products == (if succeeded then RemoveById(old(products), id) else old(products))
      ensures loading == old(loading)
    {
      if !succeeded {
        return true;
      }
      products := RemoveById(products, id);
      thrown := false;
    }
  }
}
