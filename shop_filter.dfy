// The shop page's product list: the filter stages run one after the other
// over the fetched products, then the chosen sort. The stages and their
// tests are defined in the Shop module; here they are run in turn and the
// result is proved to be what the query keeps.

module ShopFilter {
  import opened ProductModel
  import opened Sorting
  import opened Wrappers
  import opened Shop
  import Seqs

  /** Each stage filters exactly when its parameter is set. */
  lemma ActiveMeans(q: ShopQuery)
    ensures Active(q, SEARCH) == (q.search != "")
    ensures Active(q, BRAND) == (|q.brands| > 0)
    ensures Active(q, CATEGORY) == (|q.categories| > 0)
    ensures Active(q, PRICE) == (q.price.Some? && q.price.value != "" && FindRange(PRICE_RANGES, q.price.value).Some?)
    ensures Active(q, SIZE) == (|q.sizes| > 0)
    ensures Active(q, NEW) == q.showNew
    ensures Active(q, SALE) == q.showSale
  {
  }

  /** `filteredProducts`: each stage filters only when its parameter is
      set, then the result is sorted. What is shown is a rearrangement of
      exactly the products the query keeps, in the sort's order; products
      the sort ranks equal (all new ones under "newest", say) stay in the
      order of the fetched list, as the stable `Array.prototype.sort` keeps
      them. */
  method FilterProducts(products: seq<Product>, q: ShopQuery) returns (result: seq<Product>)
    ensures multiset(result) == multiset(Seqs.Filter(products, Keep(q)))
    ensures multiset(result) <= multiset(products)
    ensures SortedBy(result, SortKey(q.sort))
    ensures TiesInOrder(result, Seqs.Filter(products, Keep(q)), SortKey(q.sort))
  {
    result := ApplyFilters(products, q);
    result := SortBy(result, SortKey(q.sort));
  }

  /** The filter stages of `filteredProducts`, one after the other: each
      active stage narrows the list, and together they keep exactly the
      products every active stage accepts, in their original order. The
      price stage is active only for a label naming one of the ranges. */
  method ApplyFilters(products: seq<Product>, q: ShopQuery) returns (result: seq<Product>)
    ensures result == Seqs.Filter(products, Upto(q, STAGES))
  {
    ActiveMeans(q);
    Seqs.FilterAll(products, Upto(q, SEARCH));
    result := Narrow(products, q, SEARCH, BRAND, q.search != "", products);
    result := Narrow(products, q, BRAND, CATEGORY, |q.brands| > 0, result);
    result := Narrow(products, q, CATEGORY, PRICE, |q.categories| > 0, result);
    result := Narrow(products, q, PRICE, SIZE,
                     q.price.Some? && q.price.value != "" && FindRange(PRICE_RANGES, q.price.value).Some?, result);
    result := Narrow(products, q, SIZE, NEW, |q.sizes| > 0, result);
    result := Narrow(products, q, NEW, SALE, q.showNew, result);
    result := Narrow(products, q, SALE, STAGES, q.showSale, result);
  }

  /** One `if (...) result = result.filter(...)` block: when the stage is
      active its test narrows the list, and either way the list then holds
      the products that pass every stage up to `next`. */
  method Narrow(products: seq<Product>, q: ShopQuery, k: nat, next: nat, active: bool, before: seq<Product>)
    returns (after: seq<Product>)
    requires next == k + 1 && active == Active(q, k)
    requires before == Seqs.Filter(products, Upto(q, k))
    ensures after == Seqs.Filter(products, Upto(q, next))
  {
    after := before;
    if active {
      after := Seqs.Filter(before, HitFn(q, k));
    }
    Advance(products, q, k, next, active, before, after);
  }
}
