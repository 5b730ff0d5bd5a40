/** The catalogue endpoints: the filtered, sorted and paginated product
    listing, lookup by slug, and the administrator's create, update and
    delete. */
module ProductController {
  import opened Common
  import opened Store
  import opened Listing

  // ---------------------------------------------------------------------------
  // getAllProducts

  /** `query.category = { $in: categories }` when a category filter is given. */
  predicate InCategories(p: Product, cats: Option<seq<string>>) {
    cats.None? || p.category in cats.value
  }

  /** The whole `find` query: the category filter and, when `search` is given,
      the name pattern; `matches(pattern, field)` stands for the
      case-insensitive `$regex`. */
  predicate ProductMatches(p: Product, cats: Option<seq<string>>, search: string, matches: (string, string) -> bool) {
    InCategories(p, cats) && (search == "" || matches(search, p.name))
  }

  /** The products the query selects, in stored order: each selected product
      matches, and every matching product is selected. */
  function MatchingProducts(ps: seq<Product>, cats: Option<seq<string>>, search: string, matches: (string, string) -> bool)
    : (m: seq<Product>)
    ensures |m| <= |ps|
    ensures forall j | 0 <= j < |m| :: ProductMatches(m[j], cats, search, matches) && m[j] in ps
    ensures forall j | 0 <= j < |ps| :: ProductMatches(ps[j], cats, search, matches) ==> ps[j] in m
  {
    if |ps| == 0 then []
    else
      var rest := MatchingProducts(ps[1..], cats, search, matches);
      assert forall j | 0 <= j < |ps[1..]| :: ps[1..][j] == ps[j + 1];
      if ProductMatches(ps[0], cats, search, matches) then [ps[0]] + rest else rest
  }

  /** `getAllProducts`: `arrange` stands for the store's sort on the parsed option. */
  function ListProducts(
    ps: seq<Product>, category: string, search: string, sort: string,
    rawPage: Option<int>, rawLimit: Option<int>,
    matches: (string, string) -> bool,
    arrange: (SortOption, seq<Product>) -> seq<Product>): (r: Result<Listing<Product>, ApiError>)
    ensures var m := MatchingProducts(ps, CategoryFilter(category), search, matches);
      && (r.Success? ==> r.value.meta.total == |m|)
      && (r.Success? && multiset(arrange(ParseSort(sort), m)) == multiset(m) ==>
          forall j | 0 <= j < |r.value.data| ::
            r.value.data[j] in ps && ProductMatches(r.value.data[j], CategoryFilter(category), search, matches))
  {
    var m := MatchingProducts(ps, CategoryFilter(category), search, matches);
    PaginateListsMatches(m, arrange(ParseSort(sort), m), rawPage, rawLimit);
    Paginate(m, arrange(ParseSort(sort), m), rawPage, rawLimit)
  }

  /** A category list written as `a,b,c` is read back as exactly that list. */
  lemma CategoryFilterOfJoin(cs: seq<string>)
    requires |cs| >= 1 && forall i | 0 <= i < |cs| :: ',' !in cs[i]
    requires Join(cs, ',') != ""
    ensures CategoryFilter(Join(cs, ',')) == Some(cs)
  {
    SplitJoin(cs, ',');
  }

  /** With a non-empty category query, a product is selected exactly when its
      category is one of the comma-separated names (and it meets the search). */
  lemma CategoryQueryIsMembership(
    ps: seq<Product>, category: string, search: string, matches: (string, string) -> bool, j: nat)
    requires category != "" && j < |ps|
    requires search == "" || matches(search, ps[j].name)
    ensures ps[j] in MatchingProducts(ps, CategoryFilter(category), search, matches)
      <==> ps[j].category in Split(category, ',')
  {
  }

  /** Without any filter every product is counted in the listing's total. */
  lemma UnfilteredListingCountsAll(
    ps: seq<Product>, sort: string, rawPage: Option<int>, rawLimit: Option<int>,
    matches: (string, string) -> bool,
    arrange: (SortOption, seq<Product>) -> seq<Product>)
    ensures var r := ListProducts(ps, "", "", sort, rawPage, rawLimit, matches, arrange);
      r.Success? ==> r.value.meta.total == |ps|
  {
    var m := MatchingProducts(ps, None, "", matches);
    MatchingAll(ps, matches);
  }

  lemma {:induction false} MatchingAll(ps: seq<Product>, matches: (string, string) -> bool)
    ensures MatchingProducts(ps, None, "", matches) == ps
  {
    if |ps| > 0 {
      MatchingAll(ps[1..], matches);
      assert [ps[0]] + ps[1..] == ps;
    }
  }

  // ---------------------------------------------------------------------------
  // getProductBySlug

  /** `GET /product/:slug`. */
  function ProductBySlug(ps: seq<Product>, slug: string): (r: Result<Product, ApiError>)
    ensures r.Failure? <==> forall j | 0 <= j < |ps| :: ps[j].slug != slug
    ensures r.Failure? ==> r.error == ApiError(404, "Product not found")
    ensures r.Success? ==> r.value in ps && r.value.slug == slug
  {
    var k := IndexOf(ps, SlugKey, slug);
    if k == -1 then Failure(ApiError(404, "Product not found")) else Success(ps[k])
  }

  // ---------------------------------------------------------------------------
  // createProduct, updateProduct, deleteProduct

  /** The body of `POST /product`. `price` is None when absent or not a number;
      `stock` and `sold` are None when absent. */
  datatype ProductDraft = ProductDraft(
    name: string, price: Option<int>, category: string, stock: Option<int>, sold: Option<int>)

  /** `!name || !price || !category`: an empty string, a missing price and a
      price of 0 are all falsy. */
  predicate MissingRequiredFields(d: ProductDraft) {
    d.name == "" || d.price.None? || d.price.value == 0 || d.category == ""
  }

  function OrZero(x: Option<int>): int {
    if x.Some? then x.value else 0
  }

  /** `POST /product`: the slug is `slugify(name)`; an existing slug is refused.
      An empty slug fails the schema's `required` check when the product is
      written. `stock` and `sold` default to 0. */
  method CreateProduct(db: Database, d: ProductDraft, slugify: string -> string) returns (r: Result<Product, ApiError>)
    requires db.Valid()
    modifies db
    ensures db.Valid()
    ensures db.carts == old(db.carts) && db.orders == old(db.orders) && db.users == old(db.users)
    ensures r.Failure? ==> db.products == old(db.products) && db.nextId == old(db.nextId)
    ensures r.Success? <==> (!MissingRequiredFields(d)
      && IndexOf(old(db.products), SlugKey, slugify(d.name)) == -1 && slugify(d.name) != "")
    ensures MissingRequiredFields(d) ==> r == Failure(ApiError(400, "Missing required fields"))
    ensures !MissingRequiredFields(d) && IndexOf(old(db.products), SlugKey, slugify(d.name)) >= 0 ==>
      r == Failure(ApiError(400, "Product already exists"))
    ensures !MissingRequiredFields(d) && IndexOf(old(db.products), SlugKey, slugify(d.name)) == -1 && slugify(d.name) == "" ==>
      r == Failure(ApiError(500, "Product validation failed"))
    ensures r.Success? ==>
      && !MissingRequiredFields(d) && slugify(d.name) != ""
      && r.value == Product(old(db.nextId), d.name, slugify(d.name), d.category, d.price.value, OrZero(d.stock), OrZero(d.sold))
      && db.products == old(db.products) + [r.value]
      && db.nextId == old(db.nextId) + 1
      && ProductBySlug(db.products, slugify(d.name)) == Success(r.value)
  {
    if d.name == "" || d.price.None? || d.price.value == 0 || d.category == "" {
      return Failure(ApiError(400, "Missing required fields"));
    }
    var slug := slugify(d.name);
    if IndexOf(db.products, SlugKey, slug) != -1 {
      return Failure(ApiError(400, "Product already exists"));
    }
    if slug == "" {
      return Failure(ApiError(500, "Product validation failed"));
    }
    var p := Product(db.nextId, d.name, slug, d.category, d.price.value, OrZero(d.stock), OrZero(d.sold));
    DistinctByAppend(db.products, ProductKey, p);
    DistinctByAppend(db.products, SlugKey, p);
    IndexOfIs(db.products + [p], SlugKey, slug, |db.products|);
    db.products := db.products + [p];
    db.nextId := db.nextId + 1;
    r := Success(p);
  }

  /** The fields a `PUT /product/:id` body may set; None leaves a field as it is. */
  datatype ProductPatch = ProductPatch(
    name: Option<string>, slug: Option<string>, category: Option<string>,
    price: Option<int>, stock: Option<int>, sold: Option<int>)

  function Patched(p: Product, patch: ProductPatch): (q: Product)
    ensures q.id == p.id
    ensures q.name == (if patch.name.Some? then patch.name.value else p.name)
    ensures q.slug == (if patch.slug.Some? then patch.slug.value else p.slug)
    ensures q.category == (if patch.category.Some? then patch.category.value else p.category)
    ensures q.price == (if patch.price.Some? then patch.price.value else p.price)
    ensures q.stock == (if patch.stock.Some? then patch.stock.value else p.stock)
    ensures q.sold == (if patch.sold.Some? then patch.sold.value else p.sold)
  {
    Product(p.id,
      if patch.name.Some? then patch.name.value else p.name,
      if patch.slug.Some? then patch.slug.value else p.slug,
      if patch.category.Some? then patch.category.value else p.category,
      if patch.price.Some? then patch.price.value else p.price,
      if patch.stock.Some? then patch.stock.value else p.stock,
      if patch.sold.Some? then patch.sold.value else p.sold)
  }

  /** An empty body changes nothing. */
  lemma EmptyPatchChangesNothing(p: Product)
    ensures Patched(p, ProductPatch(None, None, None, None, None, None)) == p
  {
  }

  /** Applying the same body twice is the same as applying it once. */
  lemma PatchIdempotent(p: Product, patch: ProductPatch)
    ensures Patched(Patched(p, patch), patch) == Patched(p, patch)
  {
  }

  /** `PUT /product/:id` (`findByIdAndUpdate` with `{ new: true }`): not found
      gives 404; a slug that another product already has is refused by the
      unique index; otherwise only that record changes. */
  method UpdateProduct(db: Database, id: ProductId, patch: ProductPatch) returns (r: Result<Product, ApiError>)
    requires db.Valid()
    modifies db
    ensures db.Valid()
    ensures db.carts == old(db.carts) && db.orders == old(db.orders)
    ensures db.users == old(db.users) && db.nextId == old(db.nextId)
    ensures r.Failure? ==> db.products == old(db.products)
    ensures var k := IndexOf(old(db.products), ProductKey, id);
      && (r.Success? <==> (k >= 0 && !(patch.slug.Some?
            && exists j | 0 <= j < |old(db.products)| && j != k :: old(db.products)[j].slug == patch.slug.value)))
      && (k == -1 ==> r == Failure(ApiError(404, "Product not found")))
      && (k >= 0 && patch.slug.Some? && (exists j | 0 <= j < |old(db.products)| && j != k :: old(db.products)[j].slug == patch.slug.value) ==>
          r == Failure(ApiError(500, "E11000 duplicate key error")))
      && (r.Success? ==>
          && k >= 0
          && db.products == old(db.products)[k := Patched(old(db.products)[k], patch)]
          && r.value == db.products[k])
  {
    var k := IndexOf(db.products, ProductKey, id);
    if k == -1 {
      return Failure(ApiError(404, "Product not found"));
    }
    if patch.slug.Some? {
      var j := 0;
      while j < |db.products|
        invariant 0 <= j <= |db.products|
        invariant forall i | 0 <= i < j && i != k :: db.products[i].slug != patch.slug.value
      {
        if j != k && db.products[j].slug == patch.slug.value {
          return Failure(ApiError(500, "E11000 duplicate key error"));
        }
        j := j + 1;
      }
    }
    var q := Patched(db.products[k], patch);
    PatchKeepsKeys(db.products, k, q, db.products[k := q], db.nextId);
    db.products := db.products[k := q];
    r := Success(q);
  }

  /** Replacing the record at `k` by one with the same id and a slug no other
      record has keeps ids and slugs unique. */
  lemma PatchKeepsKeys(ps: seq<Product>, k: nat, q: Product, qs: seq<Product>, bound: nat)
    requires k < |ps| && DistinctBy(ps, ProductKey) && DistinctBy(ps, SlugKey)
    requires forall i | 0 <= i < |ps| :: ps[i].id < bound
    requires q.id == ps[k].id
    requires q.slug == ps[k].slug || forall i | 0 <= i < |ps| && i != k :: ps[i].slug != q.slug
    requires qs == ps[k := q]
    ensures DistinctBy(qs, ProductKey) && DistinctBy(qs, SlugKey)
    ensures forall i | 0 <= i < |qs| :: qs[i].id < bound
  {
    forall a, b | 0 <= a < b < |qs| ensures SlugKey(qs[a]) != SlugKey(qs[b]) {
      assert SlugKey(ps[a]) != SlugKey(ps[b]);
    }
  }

  /** `DELETE /product/:id`: not found gives 404; otherwise that record goes
      and the others keep their order. Cart and order lines naming it stay. */
  method DeleteProduct(db: Database, id: ProductId) returns (r: Result<string, ApiError>)
    requires db.Valid()
    modifies db
    ensures db.Valid()
    ensures db.carts == old(db.carts) && db.orders == old(db.orders)
    ensures db.users == old(db.users) && db.nextId == old(db.nextId)
    ensures var k := IndexOf(old(db.products), ProductKey, id);
      && (k == -1 ==> r == Failure(ApiError(404, "Product not found")) && db.products == old(db.products))
      && (k >= 0 ==> r == Success("Product deleted") && db.products == RemoveAt(old(db.products), k))
    ensures forall j | 0 <= j < |db.products| :: db.products[j].id != id
  {
    var k := IndexOf(db.products, ProductKey, id);
    if k == -1 {
      return Failure(ApiError(404, "Product not found"));
    }
    DistinctByRemoveAt(db.products, ProductKey, k);
    DistinctByRemoveAt(db.products, SlugKey, k);
    ghost var ps := db.products;
    db.products := RemoveAt(db.products, k);
    forall j | 0 <= j < |db.products| ensures db.products[j].id != id {
      var j' := if j < k then j else j + 1;
      assert db.products[j] == ps[j'] && ProductKey(ps[j']) != ProductKey(ps[k]);
    }
    r := Success("Product deleted");
  }
}
