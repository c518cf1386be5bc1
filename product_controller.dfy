// The catalogue endpoints: the listing whose filter is built from the query
// parameters that are present, and the single-product read, create, update
// and delete with their 404 and 500 outcomes.

module ProductController {
  import opened Wrappers
  import opened ProductModel
  import opened Store
  import Text
  import Seqs

  /** The filter object the listing builds: a condition per parameter given. */
  datatype Query = Query(category: Option<string>, name: Option<string>, isNew: bool, isFeatured: bool)

  /** Does a product satisfy every condition of the filter? The name
      condition is a case-insensitive match of the literal search text. */
  predicate MatchesQuery(p: Product, q: Query)
  {
    && (q.category.Some? ==> p.category == q.category.value)
    && (q.name.Some? ==> Text.IncludesIgnoringCase(p.name, q.name.value))
    && (q.isNew ==> p.isNew)
    && (q.isFeatured ==> p.isFeatured)
  }

  /** What the listing should return for the raw query parameters (an absent
      parameter is ""): category matched exactly, the search text in the
      name ignoring case, and `isNew` / `isFeatured` only when exactly "true". */
  predicate Selected(p: Product, category: string, search: string, isNew: string, isFeatured: string)
  {
    && (category != "" ==> p.category == category)
    && (search != "" ==> Text.IncludesIgnoringCase(p.name, search))
    && (isNew == "true" ==> p.isNew)
    && (isFeatured == "true" ==> p.isFeatured)
  }

  /** The `query` object filled in one `if` at a time. */
  method BuildQuery(category: string, search: string, isNew: string, isFeatured: string) returns (q: Query)
    ensures forall p :: MatchesQuery(p, q) <==> Selected(p, category, search, isNew, isFeatured)
    ensures q.category.Some? <==> category != ""
    ensures q.name.Some? <==> search != ""
  {
    q := Query(None, None, false, false);
    if category != "" {
      q := q.(category := Some(category));
    }
    if search != "" {
      q := q.(name := Some(search));
    }
    if isNew == "true" {
      q := q.(isNew := true);
    }
    if isFeatured == "true" {
      q := q.(isFeatured := true);
    }
  }

  /** GET /: the products the query selects, newest first. */
  method GetProducts(db: Db, category: string, search: string, isNew: string, isFeatured: string)
    returns (products: seq<Product>)
    ensures products == Seqs.Reverse(Seqs.Filter(db.products,
      (p: Product) => Selected(p, category, search, isNew, isFeatured)))
    ensures forall i :: 0 <= i < |products| ==>
      Selected(products[i], category, search, isNew, isFeatured) && products[i] in db.products
    ensures forall i :: 0 <= i < |db.products| && Selected(db.products[i], category, search, isNew, isFeatured) ==>
      db.products[i] in products
  {
    var q := BuildQuery(category, search, isNew, isFeatured);
    Seqs.FilterCongruent(db.products, (p: Product) => MatchesQuery(p, q),
      (p: Product) => Selected(p, category, search, isNew, isFeatured));
    var selected := Seqs.Filter(db.products, (p: Product) => MatchesQuery(p, q));
    products := Seqs.Reverse(selected);
    Seqs.ReverseSameElements(selected);
  }

  /** With no parameter (or none that filters) the listing is the whole
      catalogue, newest first; `isNew=false` is the same as no `isNew`. */
  lemma NoFilterListsAll(products: seq<Product>, isNew: string, isFeatured: string)
    requires isNew != "true" && isFeatured != "true"
    ensures Seqs.Filter(products, (p: Product) => Selected(p, "", "", isNew, isFeatured)) == products
  {
    Seqs.FilterAll(products, (p: Product) => Selected(p, "", "", isNew, isFeatured));
  }

  /** GET /:id. */
  method GetProduct(db: Db, id: ProductId) returns (reply: Reply<Product>)
    ensures FindProduct(db.products, id).None? ==> reply == Respond(NOT_FOUND, "Product not found")
    ensures FindProduct(db.products, id).Some? ==> reply == Done(OK, db.products[FindProduct(db.products, id).value])
    ensures reply.Done? ==> reply.body.id == id && reply.body in db.products
  {
    var pi := FindProduct(db.products, id);
    if pi.None? {
      return Respond(NOT_FOUND, "Product not found");
    }
    reply := Done(OK, db.products[pi.value]);
  }

  /** POST /: a body missing a required field fails validation (500);
      otherwise the product is stored with its defaults and returned with 201. */
  method CreateProductEndpoint(db: Db, input: ProductInput) returns (reply: Reply<Product>)
    requires db.Valid()
    modifies db
    ensures db.Valid()
    ensures db.users == old(db.users) && db.orders == old(db.orders)
    ensures !HasRequiredFields(input) ==>
      reply == Respond(SERVER_ERROR, "Server error") && db.products == old(db.products) && db.nextId == old(db.nextId)
    ensures HasRequiredFields(input) ==>
      && reply == Done(CREATED, CreateProduct(old(db.nextId), input).value)
      && db.products == old(db.products) + [reply.body]
      && db.nextId == old(db.nextId) + 1
  {
    var created := CreateProduct(db.nextId, input);
    if created.None? {
      return Respond(SERVER_ERROR, "Server error");
    }
    db.AddProduct(created.value);
    reply := Done(CREATED, created.value);
  }

  /** PUT /:id: an unknown id is 404 and changes nothing; otherwise the
      body is overlaid on the stored product and the new version returned. */
  method UpdateProduct(db: Db, id: ProductId, input: ProductInput) returns (reply: Reply<Product>)
    requires db.Valid()
    modifies db
    ensures db.Valid()
    ensures db.users == old(db.users) && db.orders == old(db.orders) && db.nextId == old(db.nextId)
    ensures FindProduct(old(db.products), id).None? ==>
      reply == Respond(NOT_FOUND, "Product not found") && db.products == old(db.products)
    ensures FindProduct(old(db.products), id).Some? ==>
      (var i := FindProduct(old(db.products), id).value;
       && db.products == old(db.products)[i := ApplyUpdate(old(db.products)[i], input)]
       && reply == Done(OK, db.products[i]))
  {
    var pi := FindProduct(db.products, id);
    if pi.None? {
      return Respond(NOT_FOUND, "Product not found");
    }
    var updated := ApplyUpdate(db.products[pi.value], input);
    db.ReplaceProduct(pi.value, updated);
    reply := Done(OK, updated);
  }

  /** DELETE /:id: an unknown id is 404 and deletes nothing. */
  method DeleteProductEndpoint(db: Db, id: ProductId) returns (reply: Reply<string>)
    requires db.Valid()
    modifies db
    ensures db.Valid()
    ensures db.users == old(db.users) && db.orders == old(db.orders) && db.nextId == old(db.nextId)
    ensures FindProduct(old(db.products), id).None? ==>
      reply == Respond(NOT_FOUND, "Product not found") && db.products == old(db.products)
    ensures FindProduct(old(db.products), id).Some? ==>
      reply == Done(OK, "Product deleted") && db.products == Seqs.Filter(old(db.products), (p: Product) => p.id != id)
    ensures forall i :: 0 <= i < |db.products| ==> db.products[i].id != id
  {
    var pi := FindProduct(db.products, id);
    if pi.None? {
      return Respond(NOT_FOUND, "Product not found");
    }
    db.DeleteProduct(id);
    reply := Done(OK, "Product deleted");
  }
}
