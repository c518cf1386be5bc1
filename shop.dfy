// The shop page: the URL's query parameters, the filter toggle that edits
// them, the facet lists offered for filtering, and the seven filter stages
// and the sorts of the product pipeline (run in ShopFilter).

module Shop {
  import opened Wrappers
  import opened Text
  import opened ProductModel
  import Seqs
  import opened Sorting

  /** `URLSearchParams`: an ordered list of key/value pairs, keys repeatable. */
  type Params = seq<(string, string)>

  /** `params.getAll(key)`: that key's values, in order. */
  function GetAll(params: Params, key: string): seq<string>
  {
    if params == [] then []
    else
      var last := params[|params| - 1];
      GetAll(params[..|params| - 1], key) + (if last.0 == key then [last.1] else [])
  }

  /** `params.get(key)`: that key's first value. */
  function Get(params: Params, key: string): (r: Option<string>)
    ensures r.None? <==> GetAll(params, key) == []
  {
    var all := GetAll(params, key);
    if all == [] then None else Some(all[0])
  }

  lemma GetAllSnoc(params: Params, pair: (string, string))
    ensures forall key :: GetAll(params + [pair], key) == GetAll(params, key) + (if pair.0 == key then [pair.1] else [])
  {
    assert (params + [pair])[..|params|] == params;
  }

  // ---------------------------------------------------------------------
  // toggleFilter

  function Other(value: string): string -> bool
  {
    v => v != value
  }

  /** The values a key holds after a toggle: every occurrence of a present
      value removed, the others kept in order; an absent value appended. */
  function Toggled(current: seq<string>, value: string): seq<string>
  {
    if value in current then Seqs.Filter(current, Other(value)) else current + [value]
  }

  /** A toggle flips whether the value is selected and keeps every other
      selection. */
  lemma ToggleFlipsOnlyValue(current: seq<string>, value: string, other: string)
    requires other != value
    ensures value in Toggled(current, value) <==> value !in current
    ensures other in Toggled(current, value) <==> other in current
  {
    if value in current {
      var r := Seqs.Filter(current, Other(value));
      if other in current {
        var i :| 0 <= i < |current| && current[i] == other;
        assert Other(value)(current[i]);
      }
    }
  }

  /** Selecting a value and deselecting it again restores the list. */
  lemma {:induction false} ToggleTwiceRestores(current: seq<string>, value: string)
    requires value !in current
    ensures Toggled(Toggled(current, value), value) == current
  {
    var once := current + [value];
    assert value in once;
    Seqs.FilterSnoc(current, value, Other(value));
    Seqs.FilterAll(current, Other(value));
  }

  /** `params.delete(key)`: every pair of that key dropped. */
  method DeleteKey(params: Params, key: string) returns (r: Params)
    ensures GetAll(r, key) == []
    ensures forall k :: k != key ==> GetAll(r, k) == GetAll(params, k)
  {
    r := [];
    var i := 0;
    while i < |params|
      invariant 0 <= i <= |params|
      invariant GetAll(r, key) == []
      invariant forall k :: k != key ==> GetAll(r, k) == GetAll(params[..i], k)
    {
      GetAllSnoc(params[..i], params[i]);
      assert params[..i + 1] == params[..i] + [params[i]];
      if params[i].0 != key {
        GetAllSnoc(r, params[i]);
        r := r + [params[i]];
      }
      i := i + 1;
    }
    assert params[..i] == params;
  }

  /** `values.forEach(v => params.append(key, v))`. */
  method AppendEach(params: Params, key: string, values: seq<string>) returns (r: Params)
    ensures GetAll(r, key) == GetAll(params, key) + values
    ensures forall k :: k != key ==> GetAll(r, k) == GetAll(params, k)
  {
    r := params;
    var j := 0;
    while j < |values|
      invariant 0 <= j <= |values|
      invariant GetAll(r, key) == GetAll(params, key) + values[..j]
      invariant forall k :: k != key ==> GetAll(r, k) == GetAll(params, k)
    {
      GetAllSnoc(r, (key, values[j]));
      assert values[..j + 1] == values[..j] + [values[j]];
      r := r + [(key, values[j])];
      j := j + 1;
    }
    assert values[..j] == values;
  }

  /** `toggleFilter`: a copy of the parameters in which `key`'s values are
      toggled, and every other key's values are what they were. */
  method ToggleFilter(params: Params, key: string, value: string) returns (r: Params)
    ensures GetAll(r, key) == Toggled(GetAll(params, key), value)
    ensures forall k :: k != key ==> GetAll(r, k) == GetAll(params, k)
  {
    var current := GetAll(params, key);
    if value in current {
      r := DeleteKey(params, key);
      r := AppendEach(r, key, Seqs.Filter(current, Other(value)));
    } else {
      GetAllSnoc(params, (key, value));
      r := params + [(key, value)];
    }
  }

  // ---------------------------------------------------------------------
  // The query the page reads from its parameters

  datatype PriceRange = PriceRange(caption: string, min: real, max: Option<real>)

  /** The four ranges offered; the last has no upper bound (`Infinity`). */
  const PRICE_RANGES: seq<PriceRange> := [
    PriceRange("Under $100", 0.0, Some(100.0)),
    PriceRange("$100 - $150", 100.0, Some(150.0)),
    PriceRange("$150 - $200", 150.0, Some(200.0)),
    PriceRange("Over $200", 200.0, None)
  ]

  /** `priceRanges.find(r => r.label === label)`. */
  function FindRange(ranges: seq<PriceRange>, caption: string): (r: Option<PriceRange>)
    ensures r.Some? ==> r.value in ranges && r.value.caption == caption
    ensures r.None? <==> forall i :: 0 <= i < |ranges| ==> ranges[i].caption != caption
  {
    if ranges == [] then None
    else if ranges[0].caption == caption then Some(ranges[0])
    else
      var rest := FindRange(ranges[1..], caption);
      assert forall i :: 1 <= i < |ranges| ==> ranges[i] == ranges[1..][i - 1];
      rest
  }

  /** Both bounds inclusive. */
  predicate InRange(range: PriceRange, price: real)
  {
    price >= range.min && (range.max.None? || price <= range.max.value)
  }

  /** What the page reads from the parameters. A size parameter that is not
      a number (`Number` gives NaN) is None and matches no product. */
  datatype ShopQuery = ShopQuery(
    search: string, brands: seq<string>, categories: seq<string>, price: Option<string>,
    sizes: seq<Option<real>>, sort: string, showNew: bool, showSale: bool)

  function QueryOf(params: Params, number: string -> Option<real>): ShopQuery
  {
    var sort := GetOr(Get(params, "sort"), "");
    ShopQuery(
      GetOr(Get(params, "search"), ""),
      GetAll(params, "brand"),
      GetAll(params, "category"),
      Get(params, "price"),
      Seqs.Map(GetAll(params, "size"), number),
      if sort == "" then "featured" else sort,
      Get(params, "isNew") == Some("true"),
      Get(params, "onSale") == Some("true"))
  }

  // ---------------------------------------------------------------------
  // The filter pipeline

  const SEARCH := 0
  const BRAND := 1
  const CATEGORY := 2
  const PRICE := 3
  const SIZE := 4
  const NEW := 5
  const SALE := 6
  const STAGES := 7

  /** Whether stage `k` filters at all for this query. */
  predicate Active(q: ShopQuery, k: nat)
  {
    match k
    case 0 => q.search != ""
    case 1 => |q.brands| > 0
    case 2 => |q.categories| > 0
    case 3 => q.price.Some? && q.price.value != "" && FindRange(PRICE_RANGES, q.price.value).Some?
    case 4 => |q.sizes| > 0
    case 5 => q.showNew
    case 6 => q.showSale
    case _ => false
  }

  /** `selected.some(s => sizes.includes(s))`; a NaN selection is None and
      is included in no list of sizes. */
  predicate SomeSizeIn(selected: seq<Option<real>>, sizes: seq<real>)
  {
    selected != [] && ((selected[0].Some? && selected[0].value in sizes) || SomeSizeIn(selected[1..], sizes))
  }

  lemma {:induction false} SomeSizeInMeans(selected: seq<Option<real>>, sizes: seq<real>)
    ensures SomeSizeIn(selected, sizes) <==>
      exists i :: 0 <= i < |selected| && selected[i].Some? && selected[i].value in sizes
  {
    if selected != [] {
      SomeSizeInMeans(selected[1..], sizes);
      if exists i :: 0 <= i < |selected| && selected[i].Some? && selected[i].value in sizes {
        var i :| 0 <= i < |selected| && selected[i].Some? && selected[i].value in sizes;
        if i > 0 {
          assert selected[1..][i - 1] == selected[i];
        }
      }
    }
  }

  /** The test stage `k` applies when active. */
  predicate Hit(q: ShopQuery, k: nat, p: Product)
  {
    match k
    case 0 => IncludesIgnoringCase(p.name, q.search) || IncludesIgnoringCase(p.brand, q.search)
              || IncludesIgnoringCase(p.category, q.search)
    case 1 => p.brand in q.brands
    case 2 => p.category in q.categories
    case 3 => q.price.Some? && (match FindRange(PRICE_RANGES, q.price.value)
              case Some(range) => InRange(range, p.price)
              case None => true)
    case 4 => SomeSizeIn(q.sizes, p.sizes)
    case 5 => p.isNew
    case 6 => p.originalPrice.Some? && p.originalPrice.value != 0.0
    case _ => true
  }

  function HitFn(q: ShopQuery, k: nat): Product -> bool
  {
    p => Hit(q, k, p)
  }

  predicate Pass(q: ShopQuery, k: nat, p: Product)
  {
    Active(q, k) ==> Hit(q, k, p)
  }

  /** The products surviving the first `n` stages. */
  function Upto(q: ShopQuery, n: nat): Product -> bool
  {
    p => forall k :: 0 <= k < n ==> Pass(q, k, p)
  }

  /** The products the page shows for a query. */
  function Keep(q: ShopQuery): Product -> bool
  {
    Upto(q, STAGES)
  }

  /** What the pipeline keeps, in the page's own terms. */
  lemma KeepMeans(q: ShopQuery, p: Product)
    ensures Keep(q)(p) <==>
      && (q.search != "" ==> IncludesIgnoringCase(p.name, q.search) || IncludesIgnoringCase(p.brand, q.search)
                             || IncludesIgnoringCase(p.category, q.search))
      && (|q.brands| > 0 ==> p.brand in q.brands)
      && (|q.categories| > 0 ==> p.category in q.categories)
      && (q.price.Some? && q.price.value != "" ==>
            (match FindRange(PRICE_RANGES, q.price.value)
             case Some(range) => InRange(range, p.price)
             case None => true))
      && (|q.sizes| > 0 ==> exists i :: 0 <= i < |q.sizes| && q.sizes[i].Some? && q.sizes[i].value in p.sizes)
      && (q.showNew ==> p.isNew)
      && (q.showSale ==> p.originalPrice.Some? && p.originalPrice.value != 0.0)
  {
    SomeSizeInMeans(q.sizes, p.sizes);
    assert Keep(q)(p) <==> (Pass(q, 0, p) && Pass(q, 1, p) && Pass(q, 2, p) && Pass(q, 3, p)
                            && Pass(q, 4, p) && Pass(q, 5, p) && Pass(q, 6, p));
  }

  /** Surviving one stage more is surviving the stages before it and that
      stage. */
  lemma UptoStep(q: ShopQuery, k: nat, p: Product)
    ensures Upto(q, k + 1)(p) == (Upto(q, k)(p) && Pass(q, k, p))
  {
    if Upto(q, k)(p) && Pass(q, k, p) {
      forall j | 0 <= j < k + 1 ensures Pass(q, j, p) {
        if j < k {
          assert Upto(q, k)(p);
        }
      }
    }
  }

  /** An active stage filters the survivors of the stages before it. */
  lemma {:induction false} AdvanceActive(products: seq<Product>, q: ShopQuery, k: nat)
    requires Active(q, k)
    ensures Seqs.Filter(Seqs.Filter(products, Upto(q, k)), HitFn(q, k)) == Seqs.Filter(products, Upto(q, k + 1))
  {
    forall i | 0 <= i < |products|
      ensures Upto(q, k + 1)(products[i]) == (Upto(q, k)(products[i]) && HitFn(q, k)(products[i]))
    {
      UptoStep(q, k, products[i]);
    }
    Seqs.FilterFilter(products, Upto(q, k), HitFn(q, k), Upto(q, k + 1));
  }

  /** An inactive stage lets every survivor through. */
  lemma {:induction false} AdvanceInactive(products: seq<Product>, q: ShopQuery, k: nat)
    requires !Active(q, k)
    ensures Seqs.Filter(products, Upto(q, k)) == Seqs.Filter(products, Upto(q, k + 1))
  {
    forall i | 0 <= i < |products| ensures Upto(q, k)(products[i]) == Upto(q, k + 1)(products[i]) {
      UptoStep(q, k, products[i]);
    }
    Seqs.FilterCongruent(products, Upto(q, k), Upto(q, k + 1));
  }

  /** One stage of the pipeline: filtering the survivors of stages before
      `k` by stage `k` (or not at all, when it is inactive) leaves the
      survivors of the stages up to `next`, the one after `k`. */
  lemma {:induction false} Advance(products: seq<Product>, q: ShopQuery, k: nat, next: nat, active: bool,
                                   before: seq<Product>, after: seq<Product>)
    requires next == k + 1 && active == Active(q, k)
    requires before == Seqs.Filter(products, Upto(q, k))
    requires after == if active then Seqs.Filter(before, HitFn(q, k)) else before
    ensures after == Seqs.Filter(products, Upto(q, next))
  {
    if active {
      AdvanceActive(products, q, k);
    } else {
      AdvanceInactive(products, q, k);
    }
  }

  /** The key each sort orders by, ascending: the comparators subtract
      prices, or put new (respectively featured) products first. */
  function SortKey(sort: string): Product -> real
  {
    if sort == "price-low" then (p: Product) => p.price
    else if sort == "price-high" then (p: Product) => -p.price
    else if sort == "newest" then (p: Product) => if p.isNew then 0.0 else 1.0
    else (p: Product) => if p.isFeatured then 0.0 else 1.0
  }

  // ---------------------------------------------------------------------
  // Properties of the pipeline's parts

  /** With no parameters (as after clearing the filters) every product is
      kept. */
  lemma NoParamsKeepAll(products: seq<Product>, number: string -> Option<real>)
    ensures Seqs.Filter(products, Keep(QueryOf([], number))) == products
  {
    var q := QueryOf([], number);
    forall i | 0 <= i < |products| ensures Keep(q)(products[i]) {
      KeepMeans(q, products[i]);
    }
    Seqs.FilterAll(products, Keep(q));
  }

  /** A price of exactly 100 lies in the first two ranges and in no other. */
  lemma HundredInTwoRanges()
    ensures InRange(PRICE_RANGES[0], 100.0) && InRange(PRICE_RANGES[1], 100.0)
    ensures !InRange(PRICE_RANGES[2], 100.0) && !InRange(PRICE_RANGES[3], 100.0)
  {
  }

  /** A price label naming none of the ranges filters nothing. */
  lemma UnknownRangeFiltersNothing(q: ShopQuery, p: Product)
    requires q.price.Some?
    requires forall i :: 0 <= i < |PRICE_RANGES| ==> PRICE_RANGES[i].caption != q.price.value
    ensures Pass(q, PRICE, p)
  {
  }

  /** The price sorts order by price, up and down. */
  lemma PriceSorts(xs: seq<Product>)
    ensures SortedBy(xs, SortKey("price-low")) ==> forall i, j :: 0 <= i < j < |xs| ==> xs[i].price <= xs[j].price
    ensures SortedBy(xs, SortKey("price-high")) ==> forall i, j :: 0 <= i < j < |xs| ==> xs[i].price >= xs[j].price
  {
    assert "price-high"[6] != "price-low"[6];
    if SortedBy(xs, SortKey("price-high")) {
      forall i, j | 0 <= i < j < |xs| ensures xs[i].price >= xs[j].price {
        assert SortKey("price-high")(xs[i]) <= SortKey("price-high")(xs[j]);
      }
    }
  }

  /** "newest" puts every new product before every other; any other sort
      value (the default "featured") does the same for featured products. */
  lemma FlagSorts(xs: seq<Product>, sort: string)
    ensures SortedBy(xs, SortKey("newest")) ==> forall i, j :: 0 <= i < j < |xs| && xs[j].isNew ==> xs[i].isNew
    ensures sort != "price-low" && sort != "price-high" && sort != "newest" && SortedBy(xs, SortKey(sort)) ==>
      forall i, j :: 0 <= i < j < |xs| && xs[j].isFeatured ==> xs[i].isFeatured
  {
    assert "newest"[0] != "price-low"[0] && "newest"[0] != "price-high"[0];
    if SortedBy(xs, SortKey("newest")) {
      forall i, j | 0 <= i < j < |xs| && xs[j].isNew ensures xs[i].isNew {
        assert SortKey("newest")(xs[i]) <= SortKey("newest")(xs[j]);
      }
    }
    if sort != "price-low" && sort != "price-high" && sort != "newest" && SortedBy(xs, SortKey(sort)) {
      forall i, j | 0 <= i < j < |xs| && xs[j].isFeatured ensures xs[i].isFeatured {
        assert SortKey(sort)(xs[i]) <= SortKey(sort)(xs[j]);
      }
    }
  }

  // ---------------------------------------------------------------------
  // Facet lists

  /** `products.flatMap(p => p.sizes)`. */
  function AllSizes(products: seq<Product>): (r: seq<real>)
    ensures forall i, s :: 0 <= i < |products| && s in products[i].sizes ==> s in r
    ensures forall s :: s in r ==> exists i :: 0 <= i < |products| && s in products[i].sizes
  {
    if products == [] then []
    else
      var rest := AllSizes(products[1..]);
      assert forall i :: 1 <= i < |products| ==> products[i] == products[1..][i - 1];
      products[0].sizes + rest
  }

  /** The brand facet: each brand once, in string order. */
  function Brands(products: seq<Product>): (r: seq<string>)
    ensures StrictlySorted(r, StrLess)
    ensures forall i :: 0 <= i < |products| ==> products[i].brand in r
    ensures forall b :: b in r ==> exists i :: 0 <= i < |products| && products[i].brand == b
  {
    StrLessOrder();
    var names := Seqs.Map(products, (p: Product) => p.brand);
    var r := SortedSet(names, StrLess);
    assert forall i :: 0 <= i < |products| ==> names[i] == products[i].brand;
    r
  }

  /** The category facet, built the same way. */
  function Categories(products: seq<Product>): (r: seq<string>)
    ensures StrictlySorted(r, StrLess)
    ensures forall i :: 0 <= i < |products| ==> products[i].category in r
    ensures forall c :: c in r ==> exists i :: 0 <= i < |products| && products[i].category == c
  {
    StrLessOrder();
    var names := Seqs.Map(products, (p: Product) => p.category);
    var r := SortedSet(names, StrLess);
    assert forall i :: 0 <= i < |products| ==> names[i] == products[i].category;
    r
  }

  /** The size facet: each size once, in numeric order. */
  function Sizes(products: seq<Product>): (r: seq<real>)
    ensures forall i, j :: 0 <= i < j < |r| ==> r[i] < r[j]
    ensures forall s :: s in r <==> exists i :: 0 <= i < |products| && s in products[i].sizes
  {
    RealLessOrder();
    var all := AllSizes(products);
    var r := SortedSet(all, RealLess);
    SortedSetMembers(all, RealLess);
    assert forall i, j :: 0 <= i < j < |r| ==> RealLess(r[i], r[j]);
    r
  }

  /** No facet list repeats an entry. */
  lemma FacetsDistinct(products: seq<Product>)
    ensures var b := Brands(products); forall i, j :: 0 <= i < j < |b| ==> b[i] != b[j]
    ensures var c := Categories(products); forall i, j :: 0 <= i < j < |c| ==> c[i] != c[j]
  {
    StrLessOrder();
    StrictlySortedDistinct(Brands(products), StrLess);
    StrictlySortedDistinct(Categories(products), StrLess);
  }
}
