// The admin product page: the name/brand search over the list, the form
// the add and edit dialogs fill, the serialisation of a product into that
// form, and the parsing of the form back into a request body. Number
// printing (`toString`) and reading (`parseFloat`) are parameters.

module AdminProducts {
  import opened Wrappers
  import opened Text
  import opened ProductModel
  import Seqs

  /** The search test: the name or the brand contains the query. */
  predicate Matches(p: Product, query: string)
  {
    IncludesIgnoringCase(p.name, query) || IncludesIgnoringCase(p.brand, query)
  }

  /** `filteredProducts`: the products matching the search, in list order. */
  function SearchProducts(products: seq<Product>, query: string): (r: seq<Product>)
    ensures forall i :: 0 <= i < |r| ==> Matches(r[i], query)
    ensures forall i :: 0 <= i < |products| && Matches(products[i], query) ==> products[i] in r
  {
    Seqs.Filter(products, (p: Product) => Matches(p, query))
  }

  /** An empty search box lists every product. */
  lemma EmptySearchKeepsAll(products: seq<Product>)
    ensures SearchProducts(products, "") == products
  {
    forall i | 0 <= i < |products| ensures Matches(products[i], "") {
      EmptyQueryMatches(products[i].name);
    }
    Seqs.FilterAll(products, (p: Product) => Matches(p, ""));
  }

  /** The dialog's text fields and check boxes. */
  datatype ProductForm = ProductForm(
    name: string, brand: string, price: string, originalPrice: string,
    images: string, category: string, sizes: string, colors: string,
    description: string, features: string,
    inStock: bool, isNew: bool, isFeatured: bool)

  /** The form `resetForm` restores (and the one the page starts with). */
  const EMPTY_FORM := ProductForm("", "", "", "", "", "", "", "", "", "", true, false, false)

  /** `openEditDialog`: lists are joined, images one per line and the rest
      with ", "; a missing original price is an empty field. */
  function EditForm(p: Product, show: real -> string): (r: ProductForm)
    ensures r.name == p.name && r.brand == p.brand && r.category == p.category && r.description == p.description
    ensures r.inStock == p.inStock && r.isNew == p.isNew && r.isFeatured == p.isFeatured
    ensures r.price == show(p.price)
    ensures p.originalPrice.None? ==> r.originalPrice == ""
  {
    ProductForm(
      p.name, p.brand, show(p.price),
      if p.originalPrice.Some? then show(p.originalPrice.value) else "",
      Join(p.images, "\n"), p.category, Join(Seqs.Map(p.sizes, show), ", "), Join(p.colors, ", "),
      p.description, Join(p.features, ", "),
      p.inStock, p.isNew, p.isFeatured)
  }

  /** What the image field accepts: a nonempty URL starting with "http". */
  predicate IsImageUrl(s: string)
  {
    |s| > 0 && StartsWith(s, "http")
  }

  predicate NonEmpty(s: string)
  {
    s != ""
  }

  /** The image field: one URL per line, trimmed, keeping only http URLs. */
  function ParseImages(text: string): (r: seq<string>)
    ensures forall i :: 0 <= i < |r| ==> IsImageUrl(r[i]) && IsTrimmed(r[i])
  {
    Seqs.Filter(Seqs.Map(Split(text, '\n'), Trim), IsImageUrl)
  }

  /** The colors and features fields: split at commas, trimmed, and empty
      entries dropped. */
  function ParseList(text: string): (r: seq<string>)
    ensures forall i :: 0 <= i < |r| ==> r[i] != "" && IsTrimmed(r[i])
  {
    Seqs.Filter(Seqs.Map(Split(text, ','), Trim), NonEmpty)
  }

  /** The numbers among `pieces`, in order: the entries `parse` reads as
      NaN (None) are dropped. */
  function Numbers(pieces: seq<string>, parse: string -> Option<real>): (r: seq<real>)
    ensures |r| <= |pieces|
    ensures (forall i :: 0 <= i < |pieces| ==> parse(pieces[i]).None?) ==> r == []
    ensures forall i :: 0 <= i < |r| ==> exists j :: 0 <= j < |pieces| && parse(pieces[j]) == Some(r[i])
    ensures forall j :: 0 <= j < |pieces| && parse(pieces[j]).Some? ==> parse(pieces[j]).value in r
  {
    if pieces == [] then []
    else
      var rest := Numbers(pieces[1..], parse);
      assert forall j :: 1 <= j < |pieces| ==> pieces[1..][j - 1] == pieces[j];
      match parse(pieces[0])
      case Some(x) => [x] + rest
      case None => rest
  }

  /** The sizes field: split at commas, each entry trimmed and read as a
      number, and the unreadable ones dropped. */
  function ParseSizes(text: string, parse: string -> Option<real>): seq<real>
  {
    Numbers(Seqs.Map(Split(text, ','), Trim), parse)
  }

  /** What submitting the dialog does: nothing but an error message when no
      image line survives; otherwise an update of the product being edited,
      or a new product. */
  datatype Submission = MissingImages | Update(id: ProductId, data: ProductInput) | Add(data: ProductInput)

  /** `productData`: an empty original price is left out of the body (so an
      update keeps the stored one); a price `parse` cannot read is absent. */
  function ProductData(form: ProductForm, images: seq<string>, parse: string -> Option<real>): (r: ProductInput)
    requires |images| > 0
    ensures r.image == Some(images[0]) && r.images == Some(images)
    ensures r.name == Some(form.name) && r.brand == Some(form.brand) && r.category == Some(form.category)
    ensures form.originalPrice == "" ==> r.originalPrice.None?
    ensures r.stockQuantity.None? && r.rating.None?
  {
    ProductInput(
      name := Some(form.name),
      description := Some(form.description),
      price := parse(form.price),
      originalPrice := if form.originalPrice != "" then parse(form.originalPrice) else None,
      image := Some(images[0]),
      images := Some(images),
      category := Some(form.category),
      brand := Some(form.brand),
      sizes := Some(ParseSizes(form.sizes, parse)),
      colors := Some(ParseList(form.colors)),
      features := Some(ParseList(form.features)),
      inStock := Some(form.inStock),
      isNew := Some(form.isNew),
      isFeatured := Some(form.isFeatured),
      stockQuantity := None,
      rating := None)
  }

  /** `handleSubmit`. */
  function Submit(form: ProductForm, editing: Option<ProductId>, parse: string -> Option<real>): (r: Submission)
    ensures r.MissingImages? <==> ParseImages(form.images) == []
    ensures !r.MissingImages? ==> (r.Update? <==> editing.Some?)
    ensures r.Update? ==> r.id == editing.value
    ensures !r.MissingImages? ==>
      r.data.images == Some(ParseImages(form.images)) && r.data.image == Some(ParseImages(form.images)[0])
  {
    var images := ParseImages(form.images);
    if |images| == 0 then MissingImages
    else if editing.Some? then Update(editing.value, ProductData(form, images, parse))
    else Add(ProductData(form, images, parse))
  }

  /** The reset form has every text field empty, is in stock and neither new
      nor featured; submitting it only asks for an image. */
  lemma EmptyFormRefused(editing: Option<ProductId>, parse: string -> Option<real>)
    ensures EMPTY_FORM.inStock && !EMPTY_FORM.isNew && !EMPTY_FORM.isFeatured
    ensures Submit(EMPTY_FORM, editing, parse) == MissingImages
  {
    assert Split("", '\n') == [""];
    assert Seqs.Map([""], Trim) == [""];
  }

  // ---------------------------------------------------------------------
  // The edit dialog round trip

  /** Number printing and reading agree: what is printed reads back as the
      same number, prints without spaces at the ends or commas, and an empty
      entry reads as NaN. */
  ghost predicate NumbersRoundTrip(show: real -> string, parse: string -> Option<real>)
  {
    && parse("") == None
    && forall x :: parse(show(x)) == Some(x) && IsTrimmed(show(x)) && ',' !in show(x)
  }

  lemma Shown(show: real -> string, parse: string -> Option<real>, x: real)
    requires NumbersRoundTrip(show, parse)
    ensures parse(show(x)) == Some(x) && IsTrimmed(show(x)) && ',' !in show(x)
  {
  }

  /** Entries the comma-separated fields give back unchanged. */
  ghost predicate ListSafe(xs: seq<string>)
  {
    forall i :: 0 <= i < |xs| ==> xs[i] != "" && IsTrimmed(xs[i]) && ',' !in xs[i]
  }

  /** Lines the image field gives back unchanged. */
  ghost predicate ImagesSafe(xs: seq<string>)
  {
    forall i :: 0 <= i < |xs| ==> IsImageUrl(xs[i]) && IsTrimmed(xs[i]) && '\n' !in xs[i]
  }

  lemma SplitEmpty(c: char)
    ensures Split("", c) == [""]
  {
  }

  /** Trimming the pieces of a list joined with ", " gives the list back. */
  lemma {:induction false} TrimPadded(xs: seq<string>)
    requires |xs| >= 1
    requires forall i :: 0 <= i < |xs| ==> IsTrimmed(xs[i])
    ensures Seqs.Map(PadTail(xs, " "), Trim) == xs
  {
    var padded := PadTail(xs, " ");
    forall i | 0 <= i < |xs| ensures Trim(padded[i]) == xs[i] {
      if i > 0 {
        TrimSpacePrefix(' ', xs[i]);
      }
      TrimOfTrimmed(xs[i]);
    }
  }

  /** The image lines split back into themselves. */
  lemma {:induction false} SplitImageLines(images: seq<string>)
    requires |images| >= 1
    requires forall i :: 0 <= i < |images| ==> '\n' !in images[i]
    ensures Split(Join(images, "\n"), '\n') == images
  {
    assert "\n" == ['\n'] + "";
    SplitJoin(images, '\n', "");
    var pieces := Split(Join(images, "\n"), '\n');
    assert pieces == PadTail(images, "");
    forall i | 0 <= i < |images| ensures pieces[i] == images[i] {
      if i > 0 {
        assert "" + images[i] == images[i];
      }
    }
  }

  /** Trimming trimmed lines changes none of them. */
  lemma {:induction false} TrimAllTrimmed(xs: seq<string>)
    requires forall i :: 0 <= i < |xs| ==> IsTrimmed(xs[i])
    ensures Seqs.Map(xs, Trim) == xs
  {
    var trimmed := Seqs.Map(xs, Trim);
    forall i | 0 <= i < |xs| ensures trimmed[i] == xs[i] {
      TrimOfTrimmed(xs[i]);
    }
  }

  /** Splitting the joined image lines gives the images back. */
  lemma {:induction false} ImagesRoundTrip(images: seq<string>)
    requires ImagesSafe(images)
    ensures ParseImages(Join(images, "\n")) == images
  {
    if images == [] {
      SplitEmpty('\n');
      assert Seqs.Map([""], Trim) == [""];
    } else {
      SplitImageLines(images);
      TrimAllTrimmed(images);
      Seqs.FilterAll(images, IsImageUrl);
    }
  }

  /** Splitting a list joined with ", " gives the list back. */
  lemma {:induction false} ListRoundTrip(xs: seq<string>)
    requires ListSafe(xs)
    ensures ParseList(Join(xs, ", ")) == xs
  {
    if xs == [] {
      SplitEmpty(',');
      assert Seqs.Map([""], Trim) == [""];
    } else {
      assert ", " == [','] + " ";
      SplitJoin(xs, ',', " ");
      TrimPadded(xs);
      Seqs.FilterAll(xs, NonEmpty);
    }
  }

  /** Reading back numbers the same `parse` wrote. */
  lemma {:induction false} NumbersOfShown(sizes: seq<real>, show: real -> string, parse: string -> Option<real>)
    requires NumbersRoundTrip(show, parse)
    ensures Numbers(Seqs.Map(sizes, show), parse) == sizes
  {
    if sizes != [] {
      var shown := Seqs.Map(sizes, show);
      assert shown[1..] == Seqs.Map(sizes[1..], show);
      NumbersOfShown(sizes[1..], show, parse);
      Shown(show, parse, sizes[0]);
    }
  }

  /** Splitting the joined sizes reads the sizes back. */
  lemma {:induction false} SizesRoundTrip(sizes: seq<real>, show: real -> string, parse: string -> Option<real>)
    requires NumbersRoundTrip(show, parse)
    ensures ParseSizes(Join(Seqs.Map(sizes, show), ", "), parse) == sizes
  {
    var shown := Seqs.Map(sizes, show);
    if sizes == [] {
      SplitEmpty(',');
      assert Seqs.Map([""], Trim) == [""];
      assert Numbers([""], parse) == [];
    } else {
      assert ", " == [','] + " ";
      forall i | 0 <= i < |shown| ensures ',' !in shown[i] && IsTrimmed(shown[i]) {
        Shown(show, parse, sizes[i]);
      }
      SplitJoin(shown, ',', " ");
      TrimPadded(shown);
      NumbersOfShown(sizes, show, parse);
    }
  }

  /** Saving the edit dialog unchanged updates the product being edited and
      stores it back exactly as it was, except that the main image becomes
      the first of the gallery images: every list survives the join and
      split when its entries are trimmed, nonempty and free of separators. */
  lemma {:induction false} UnchangedEditKeepsProduct(p: Product, show: real -> string, parse: string -> Option<real>)
    requires NumbersRoundTrip(show, parse)
    requires ImagesSafe(p.images) && p.images != []
    requires ListSafe(p.colors) && ListSafe(p.features)
    ensures var s := Submit(EditForm(p, show), Some(p.id), parse);
      s.Update? && s.id == p.id && ApplyUpdate(p, s.data) == p.(image := p.images[0])
  {
    var form := EditForm(p, show);
    ImagesRoundTrip(p.images);
    EditData(p, show, parse);
    assert Submit(form, Some(p.id), parse) == Update(p.id, ProductData(form, p.images, parse));
  }

  /** The body an unchanged edit dialog sends: every field of the product
      but the stock count and the rating, with the first image as the main
      one. */
  lemma {:induction false} EditData(p: Product, show: real -> string, parse: string -> Option<real>)
    requires NumbersRoundTrip(show, parse)
    requires ImagesSafe(p.images) && p.images != []
    requires ListSafe(p.colors) && ListSafe(p.features)
    ensures ProductData(EditForm(p, show), p.images, parse) == ProductInput(
      Some(p.name), Some(p.description), Some(p.price), p.originalPrice, Some(p.images[0]), Some(p.images),
      Some(p.category), Some(p.brand), Some(p.sizes), Some(p.colors), Some(p.features),
      Some(p.inStock), Some(p.isNew), Some(p.isFeatured), None, None)
  {
    var form := EditForm(p, show);
    ListRoundTrip(p.colors);
    ListRoundTrip(p.features);
    SizesRoundTrip(p.sizes, show, parse);
    Shown(show, parse, p.price);
    if p.originalPrice.Some? {
      Shown(show, parse, p.originalPrice.value);
    }
  }

  /** A product without images cannot be saved from the edit dialog. */
  lemma EditWithoutImagesRefused(p: Product, show: real -> string, parse: string -> Option<real>)
    requires p.images == []
    ensures Submit(EditForm(p, show), Some(p.id), parse) == MissingImages
  {
    var form := EditForm(p, show);
    assert form.images == Join([], "\n") == "";
    SplitEmpty('\n');
    assert Seqs.Map([""], Trim) == [""];
    assert !IsImageUrl("");
    assert ParseImages(form.images) == Seqs.Filter([""], IsImageUrl) == [];
  }

  /** Emptying the original price field of an edited product leaves the
      stored original price as it was. */
  lemma ClearedOriginalPriceKept(p: Product, form: ProductForm, parse: string -> Option<real>)
    requires form.originalPrice == ""
    requires ParseImages(form.images) != []
    ensures var s := Submit(form, Some(p.id), parse);
      s.Update? && ApplyUpdate(p, s.data).originalPrice == p.originalPrice
  {
  }
}
