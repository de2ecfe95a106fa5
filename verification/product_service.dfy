/**
 * The mock catalogue service of src/api/productService.ts: queries over an in-memory product
 * list and rating list, and the rating append that updates the rated product in place.
 * The simulated delays are left out; timestamps are parameters.
 */
module ProductService {
  import opened Wrappers
  import Seqs
  import JsText
  import JsNumber

  /** A fraction kept as numerator and denominator, standing for `averageRating`. */
  datatype Ratio = Ratio(numerator: int, denominator: int)

  datatype CatalogProduct = CatalogProduct(
    id: string, name: string, categoryId: string, description: string, price: int,
    isFeatured: bool, averageRating: Ratio, ratingCount: int, lastUpdatedOn: string)

  datatype ProductRating = ProductRating(
    id: string, productId: string, userId: string, rating: int, comment: Option<string>, createdOn: string)

  /** The rating a caller submits: everything but `id` and `createdOn`. */
  datatype RatingInput = RatingInput(productId: string, userId: string, rating: int, comment: Option<string>)

  /** `ProductFilter`; a missing criterion is `undefined`. */
  datatype ProductFilter = ProductFilter(
    categoryId: Option<string>, searchTerm: Option<string>,
    minPrice: Option<int>, maxPrice: Option<int>, featured: Option<bool>)

  /** A string option that JavaScript treats as true: present and not empty. */
  predicate TruthyText(s: Option<string>)
  {
    s.Some? && s.value != ""
  }

  // The five criteria; each holds trivially when its filter value is absent or falsy.

  predicate CategoryOk(f: ProductFilter, p: CatalogProduct)
  {
    TruthyText(f.categoryId) ==> p.categoryId == f.categoryId.value
  }

  /** Case-insensitive substring of the name or the description. */
  predicate SearchOk(f: ProductFilter, p: CatalogProduct)
  {
    TruthyText(f.searchTerm) ==>
      var term := JsText.ToLower(f.searchTerm.value);
      JsText.Includes(JsText.ToLower(p.name), term) || JsText.Includes(JsText.ToLower(p.description), term)
  }

  predicate MinOk(f: ProductFilter, p: CatalogProduct)
  {
    f.minPrice.Some? ==> p.price >= f.minPrice.value
  }

  predicate MaxOk(f: ProductFilter, p: CatalogProduct)
  {
    f.maxPrice.Some? ==> p.price <= f.maxPrice.value
  }

  predicate FeaturedOk(f: ProductFilter, p: CatalogProduct)
  {
    f.featured.Some? ==> p.isFeatured == f.featured.value
  }

  /** A product satisfies every criterion the filter supplies. */
  predicate Matches(f: ProductFilter, p: CatalogProduct)
  {
    CategoryOk(f, p) && SearchOk(f, p) && MinOk(f, p) && MaxOk(f, p) && FeaturedOk(f, p)
  }

  /** One `if (...) filtered = filtered.filter(...)` step. */
  function Stage(s: seq<CatalogProduct>, active: bool, keep: CatalogProduct -> bool): seq<CatalogProduct>
  {
    if active then Seqs.Filter(s, keep) else s
  }

  function InCategory(categoryId: string): CatalogProduct -> bool
  {
    (p: CatalogProduct) => p.categoryId == categoryId
  }

  /** `term` is already lower-cased. */
  function MentionsTerm(term: string): CatalogProduct -> bool
  {
    (p: CatalogProduct) => JsText.Includes(JsText.ToLower(p.name), term) || JsText.Includes(JsText.ToLower(p.description), term)
  }

  function AtLeast(minPrice: int): CatalogProduct -> bool
  {
    (p: CatalogProduct) => p.price >= minPrice
  }

  function AtMost(maxPrice: int): CatalogProduct -> bool
  {
    (p: CatalogProduct) => p.price <= maxPrice
  }

  function FeaturedIs(featured: bool): CatalogProduct -> bool
  {
    (p: CatalogProduct) => p.isFeatured == featured
  }

  function MatchesAll(f: ProductFilter): CatalogProduct -> bool
  {
    (p: CatalogProduct) => Matches(f, p)
  }

  /** The five filter steps of `getProducts`, in the source's order. */
  function Chain(products: seq<CatalogProduct>, f: ProductFilter): seq<CatalogProduct>
  {
    var s1 := Stage(products, TruthyText(f.categoryId), InCategory(f.categoryId.GetOr("")));
    var s2 := Stage(s1, TruthyText(f.searchTerm), MentionsTerm(JsText.ToLower(f.searchTerm.GetOr(""))));
    var s3 := Stage(s2, f.minPrice.Some?, AtLeast(f.minPrice.GetOr(0)));
    var s4 := Stage(s3, f.maxPrice.Some?, AtMost(f.maxPrice.GetOr(0)));
    Stage(s4, f.featured.Some?, FeaturedIs(f.featured.GetOr(false)))
  }

  /**
   * `getProducts(filter)`: with no filter, all products in order; with one, exactly the products
   * satisfying every supplied criterion, in their original order.
   */
  function GetProducts(products: seq<CatalogProduct>, filter: Option<ProductFilter>): (r: seq<CatalogProduct>)
    ensures filter.None? ==> r == products
    ensures filter.Some? ==> r == Seqs.Filter(products, MatchesAll(filter.value))
    ensures Seqs.IsSubsequence(r, products)
  {
    if filter.None? then
      Seqs.FilterIsSubsequence(products, (p: CatalogProduct) => true);
      Seqs.FilterAll(products, (p: CatalogProduct) => true);
      products
    else
      ChainIsConjunction(products, filter.value);
      Seqs.FilterIsSubsequence(products, MatchesAll(filter.value));
      Chain(products, filter.value)
  }

  /** Narrowing step by step is the same as one filter by the conjunction of the criteria. */
  lemma ChainIsConjunction(products: seq<CatalogProduct>, f: ProductFilter)
    ensures Chain(products, f) == Seqs.Filter(products, MatchesAll(f))
  {
    var m0 := (p: CatalogProduct) => true;
    var m1 := (p: CatalogProduct) => CategoryOk(f, p);
    var m2 := (p: CatalogProduct) => CategoryOk(f, p) && SearchOk(f, p);
    var m3 := (p: CatalogProduct) => CategoryOk(f, p) && SearchOk(f, p) && MinOk(f, p);
    var m4 := (p: CatalogProduct) => CategoryOk(f, p) && SearchOk(f, p) && MinOk(f, p) && MaxOk(f, p);
    Seqs.FilterAll(products, m0);
    StageNarrows(products, m0, m1, TruthyText(f.categoryId), InCategory(f.categoryId.GetOr("")));
    StageNarrows(products, m1, m2, TruthyText(f.searchTerm), MentionsTerm(JsText.ToLower(f.searchTerm.GetOr(""))));
    StageNarrows(products, m2, m3, f.minPrice.Some?, AtLeast(f.minPrice.GetOr(0)));
    StageNarrows(products, m3, m4, f.maxPrice.Some?, AtMost(f.maxPrice.GetOr(0)));
    StageNarrows(products, m4, MatchesAll(f), f.featured.Some?, FeaturedIs(f.featured.GetOr(false)));
  }

  /** A stage applied to the products kept so far keeps those satisfying one more criterion. */
  lemma StageNarrows(s: seq<CatalogProduct>, before: CatalogProduct -> bool, after: CatalogProduct -> bool,
                     active: bool, keep: CatalogProduct -> bool)
    requires forall x :: after(x) == (before(x) && (active ==> keep(x)))
    ensures Stage(Seqs.Filter(s, before), active, keep) == Seqs.Filter(s, after)
  {
    if active {
      Seqs.FilterFilter(s, before, keep, after);
    } else {
      Seqs.FilterExt(s, before, after);
    }
  }

  /** The search ignores the case of the term: upper- and lower-case terms give the same products. */
  lemma SearchIgnoresTermCase(products: seq<CatalogProduct>, f: ProductFilter, term: string)
    ensures GetProducts(products, Some(f.(searchTerm := Some(JsText.ToLower(term)))))
         == GetProducts(products, Some(f.(searchTerm := Some(term))))
  {
    JsText.ToLowerIdempotent(term);
    var f1 := f.(searchTerm := Some(JsText.ToLower(term)));
    var f2 := f.(searchTerm := Some(term));
    Seqs.FilterExt(products, MatchesAll(f1), MatchesAll(f2));
  }

  /** Every product returned satisfies every supplied criterion, and every such product is returned. */
  lemma FilteredProductsMatch(products: seq<CatalogProduct>, f: ProductFilter)
    ensures var r := GetProducts(products, Some(f));
      && (forall i :: 0 <= i < |r| ==> Matches(f, r[i]))
      && (forall i :: 0 <= i < |products| && Matches(f, products[i]) ==> products[i] in r)
  {
    Seqs.FilterMembers(products, MatchesAll(f));
  }

  /** An empty category or search term restricts nothing; a price bound of 0 still applies. */
  lemma FalsyCriteria(products: seq<CatalogProduct>, f: ProductFilter)
    ensures GetProducts(products, Some(f.(categoryId := Some(""), searchTerm := Some(""))))
         == GetProducts(products, Some(f.(categoryId := None, searchTerm := None)))
    ensures forall i :: 0 <= i < |GetProducts(products, Some(f.(minPrice := Some(0))))| ==>
      GetProducts(products, Some(f.(minPrice := Some(0))))[i].price >= 0
  {
    var f1 := f.(categoryId := Some(""), searchTerm := Some(""));
    var f2 := f.(categoryId := None, searchTerm := None);
    Seqs.FilterExt(products, MatchesAll(f1), MatchesAll(f2));
    Seqs.FilterMembers(products, MatchesAll(f.(minPrice := Some(0))));
  }

  // ---------------------------------------------------------------------------------------------

  /** The outcome of `getProductById`: the product, or the error it throws. */
  datatype Lookup = Found(product: CatalogProduct) | NotFound(message: string)

  /** `products.find(p => p.id === id)`: the position of the first match, or -1. */
  function FindById(products: seq<CatalogProduct>, id: string): (k: int)
    ensures -1 <= k < |products|
    ensures k >= 0 ==> products[k].id == id
    ensures forall j :: 0 <= j < |products| && (k == -1 || j < k) ==> products[j].id != id
  {
    if products == [] then -1
    else if products[0].id == id then 0
    else
      var k := FindById(products[1..], id);
      if k == -1 then -1 else k + 1
  }

  /** `getProductById(id)`: the first product with that id, else the error "Product not found". */
  function GetProductById(products: seq<CatalogProduct>, id: string): (r: Lookup)
    ensures r.Found? ==> r.product.id == id
    ensures r.Found? ==> exists k :: 0 <= k < |products| && products[k] == r.product && forall j :: 0 <= j < k ==> products[j].id != id
    ensures r.NotFound? <==> forall j :: 0 <= j < |products| ==> products[j].id != id
    ensures r.NotFound? ==> r.message == "Product not found"
  {
    var k := FindById(products, id);
    if k == -1 then NotFound("Product not found") else Found(products[k])
  }

  /** `getFeaturedProducts()`. */
  function GetFeaturedProducts(products: seq<CatalogProduct>): seq<CatalogProduct>
  {
    Seqs.Filter(products, FeaturedIs(true))
  }

  /** The featured list is the general query with only `featured: true` supplied. */
  lemma FeaturedIsFeaturedFilter(products: seq<CatalogProduct>)
    ensures GetFeaturedProducts(products) == GetProducts(products, Some(ProductFilter(None, None, None, None, Some(true))))
  {
    Seqs.FilterExt(products, FeaturedIs(true), MatchesAll(ProductFilter(None, None, None, None, Some(true))));
  }

  predicate IsFor(productId: string, r: ProductRating)
  {
    r.productId == productId
  }

  /** `getProductRatings(productId)`: exactly the ratings of that product, in order. */
  function GetProductRatings(ratings: seq<ProductRating>, productId: string): (r: seq<ProductRating>)
    ensures forall i :: 0 <= i < |r| ==> r[i].productId == productId
    ensures forall i :: 0 <= i < |ratings| && ratings[i].productId == productId ==> ratings[i] in r
    ensures Seqs.IsSubsequence(r, ratings)
    ensures forall x :: multiset(r)[x] == if x.productId == productId then multiset(ratings)[x] else 0
  {
    Seqs.FilterMultiplicity(ratings, x => IsFor(productId, x));
    Seqs.FilterIsSubsequence(ratings, x => IsFor(productId, x));
    Seqs.FilterMembers(ratings, x => IsFor(productId, x));
    Seqs.Filter(ratings, x => IsFor(productId, x))
  }

  function RatingValue(r: ProductRating): int
  {
    r.rating
  }

  /** The product after a rating: count and average recomputed over `list`, timestamp set to `now`. */
  function Rerated(product: CatalogProduct, list: seq<ProductRating>, now: string): CatalogProduct
  {
    product.(averageRating := Ratio(Seqs.SumOf(list, RatingValue), |list|), ratingCount := |list|, lastUpdatedOn := now)
  }

  /**
   * Appending a rating adds one to the product's count and its value to the product's rating
   * sum, and leaves every other product's ratings as they were.
   */
  lemma AppendedRatingSummary(ratings: seq<ProductRating>, added: ProductRating, productId: string)
    ensures var before := GetProductRatings(ratings, productId);
      var after := GetProductRatings(ratings + [added], productId);
      && (added.productId == productId ==>
            |after| == |before| + 1 && Seqs.SumOf(after, RatingValue) == Seqs.SumOf(before, RatingValue) + added.rating)
      && (added.productId != productId ==> after == before)
  {
    var p := x => IsFor(productId, x);
    Seqs.FilterAppend(ratings, [added], p);
    assert Seqs.Filter([added], p) == (if p(added) then [added] else []) by {
      assert [added][1..] == [];
    }
    if added.productId == productId {
      Seqs.SumOfAppend(Seqs.Filter(ratings, p), [added], RatingValue);
      Seqs.SumOfSingleton(added, RatingValue);
    }
  }

  /** The mock database: the product and rating arrays, updated in place by `addProductRating`. */
  class Catalog {
    var products: seq<CatalogProduct>
    var productRatings: seq<ProductRating>

    constructor (products: seq<CatalogProduct>, productRatings: seq<ProductRating>)
      ensures this.products == products && this.productRatings == productRatings
    {
      this.products := products;
      this.productRatings := productRatings;
    }

    /**
     * `addProductRating(rating)`: the new rating gets id `String(length + 1)` and is appended; the
     * first product with its product id (if any) gets its count and average recomputed over all
     * of that product's ratings and its timestamp set. No other product changes. `createdOn` and
     * `updatedOn` stand for the two `new Date().toISOString()` reads.
     */
    method AddProductRating(rating: RatingInput, createdOn: string, updatedOn: string) returns (newRating: ProductRating)
      modifies this
      ensures newRating == ProductRating(JsNumber.ToText(JsNumber.Int(|old(productRatings)| + 1)),
                                         rating.productId, rating.userId, rating.rating, rating.comment, createdOn)
      ensures productRatings == old(productRatings) + [newRating]
      ensures var k := FindById(old(products), rating.productId);
        && (k == -1 ==> products == old(products))
        && (k >= 0 ==> products == old(products)[k := Rerated(old(products)[k], GetProductRatings(productRatings, rating.productId), updatedOn)])
      ensures var k := FindById(old(products), rating.productId);
        k >= 0 ==> products[k].ratingCount == |GetProductRatings(old(productRatings), rating.productId)| + 1
    {
      newRating := ProductRating(JsNumber.ToText(JsNumber.Int(|productRatings| + 1)),
                                 rating.productId, rating.userId, rating.rating, rating.comment, createdOn);
      productRatings := productRatings + [newRating];
      var k := FindById(products, rating.productId);
      if k != -1 {
        var list := GetProductRatings(productRatings, rating.productId);
        products := products[k := Rerated(products[k], list, updatedOn)];
        AppendedRatingSummary(old(productRatings), newRating, rating.productId);
      }
    }
  }
}
