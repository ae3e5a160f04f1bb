/**
 * The product catalogue: the product record and its validation rules, the
 * card a product list shows, and the repository's queries — lookup by slug
 * and category, the filtered, sorted and paged catalogue query, the flagged
 * selections, text search, related products and the brand list.
 *
 * Prices are whole roubles; a rating is kept in tenths (4.8 is 48).
 * `collate(x, y)` stands for `x.localeCompare(y) <= 0`.
 */
module Products {
  import opened Wrappers
  import opened Seqs
  import opened Sorting
  import opened Text
  import opened ZodHelpers

  datatype Product = Product(
    id: string, name: string, slug: string, shortDescription: string,
    price: int, oldPrice: Option<int>, images: seq<string>,
    categoryId: string, categorySlug: string, brand: string, sku: string,
    inStock: bool, stockQuantity: int, rating10: int, reviewsCount: int,
    isNew: bool, isFeatured: bool, isOnSale: bool, createdAt: string)

  /**
   * `productSchema`: a non-empty name and slug, a positive price and old
   * price, a rating from 0 to 5, and non-negative whole stock and review counts.
   */
  predicate ValidProduct(p: Product) {
    && |p.name| >= 1 && |p.slug| >= 1
    && p.price > 0 && (p.oldPrice.Some? ==> p.oldPrice.value > 0)
    && p.stockQuantity >= 0
    && 0 <= p.rating10 <= 50
    && p.reviewsCount >= 0
  }

  // ---------------------------------------------------------------- card

  datatype ProductCard = ProductCard(
    id: string, name: string, slug: string, shortDescription: string, price: int, oldPrice: Option<int>,
    image: string, brand: string, inStock: bool, rating10: int, reviewsCount: int, isNew: bool, isOnSale: bool)

  const PlaceholderImage := "/placeholder-product.jpg"

  /**
   * `mapProductToCard`: the card copies the product's fields; its image is
   * the first image, or the placeholder when there is none or it is empty.
   */
  function ToCard(p: Product): (c: ProductCard)
    ensures c.image == if |p.images| > 0 && p.images[0] != "" then p.images[0] else PlaceholderImage
    ensures c.image != ""
    ensures && c.id == p.id && c.name == p.name && c.slug == p.slug && c.shortDescription == p.shortDescription
            && c.price == p.price && c.oldPrice == p.oldPrice && c.brand == p.brand && c.inStock == p.inStock
            && c.rating10 == p.rating10 && c.reviewsCount == p.reviewsCount && c.isNew == p.isNew && c.isOnSale == p.isOnSale
  {
    var image := if |p.images| > 0 && p.images[0] != "" then p.images[0] else PlaceholderImage;
    ProductCard(p.id, p.name, p.slug, p.shortDescription, p.price, p.oldPrice, image, p.brand, p.inStock,
                p.rating10, p.reviewsCount, p.isNew, p.isOnSale)
  }

  // ---------------------------------------------------------------- filter

  /** `ProductFilter`: every field optional. */
  datatype ProductFilter = ProductFilter(
    categorySlug: Option<string>, brands: Option<seq<string>>, priceMin: Option<real>, priceMax: Option<real>,
    inStock: Option<bool>, isNew: Option<bool>, isOnSale: Option<bool>, search: Option<string>)

  const NoFilter := ProductFilter(None, None, None, None, None, None, None, None)

  /** `productFilterSchema`: a price bound, when given, must be positive. */
  predicate ValidFilter(f: ProductFilter) {
    && (f.priceMin.Some? ==> f.priceMin.value > 0.0)
    && (f.priceMax.Some? ==> f.priceMax.value > 0.0)
  }

  /** The text search: the lower-cased query occurs in the lower-cased name, short description or brand. */
  predicate SearchMatches(p: Product, query: string) {
    var q := ToLower(query);
    Contains(ToLower(p.name), q) || Contains(ToLower(p.shortDescription), q) || Contains(ToLower(p.brand), q)
  }

  /**
   * The eight tests of `findWithFilters`, in the order it applies them. A
   * test is active when its filter field is set (and, for the category,
   * flags and search, truthy; for the brands, non-empty).
   */
  predicate Active(f: ProductFilter, i: nat) {
    match i
    case 0 => f.categorySlug.Some? && f.categorySlug.value != ""
    case 1 => f.brands.Some? && |f.brands.value| > 0
    case 2 => f.priceMin.Some?
    case 3 => f.priceMax.Some?
    case 4 => f.inStock.Some?
    case 5 => f.isNew == Some(true)
    case 6 => f.isOnSale == Some(true)
    case 7 => f.search.Some? && f.search.value != ""
    case _ => false
  }

  /** What the i-th test demands of a product when it is active. */
  predicate Test(f: ProductFilter, i: nat, p: Product)
    requires Active(f, i)
  {
    match i
    case 0 => p.categorySlug == f.categorySlug.value
    case 1 => p.brand in f.brands.value
    case 2 => p.price as real >= f.priceMin.value
    case 3 => p.price as real <= f.priceMax.value
    case 4 => p.inStock == f.inStock.value
    case 5 => p.isNew
    case 6 => p.isOnSale
    case 7 => SearchMatches(p, f.search.value)
  }

  predicate Criterion(f: ProductFilter, i: nat, p: Product) {
    Active(f, i) ==> Test(f, i, p)
  }

  function CriterionFn(f: ProductFilter, i: nat): Product -> bool {
    p => Criterion(f, i, p)
  }

  /** The product passes every supplied filter. */
  predicate Passes(f: ProductFilter, p: Product) {
    && (f.categorySlug.Some? && f.categorySlug.value != "" ==> p.categorySlug == f.categorySlug.value)
    && (f.brands.Some? && |f.brands.value| > 0 ==> p.brand in f.brands.value)
    && (f.priceMin.Some? ==> p.price as real >= f.priceMin.value)
    && (f.priceMax.Some? ==> p.price as real <= f.priceMax.value)
    && (f.inStock.Some? ==> p.inStock == f.inStock.value)
    && (f.isNew == Some(true) ==> p.isNew)
    && (f.isOnSale == Some(true) ==> p.isOnSale)
    && (f.search.Some? && f.search.value != "" ==> SearchMatches(p, f.search.value))
  }

  function PassesFn(f: ProductFilter): Product -> bool {
    p => Passes(f, p)
  }

  /** The product passes the first `k` tests. */
  function PassesFirst(f: ProductFilter, k: nat): Product -> bool {
    p => forall i :: 0 <= i < k ==> Criterion(f, i, p)
  }

  /** Narrowing by the k-th test when it is active, and by nothing otherwise, adds the k-th test. */
  lemma Narrow(data: seq<Product>, f: ProductFilter, k: nat)
    ensures Filter(data, PassesFirst(f, k + 1)) ==
            if Active(f, k) then Filter(Filter(data, PassesFirst(f, k)), CriterionFn(f, k))
            else Filter(data, PassesFirst(f, k))
  {
    if Active(f, k) {
      FilterFilter(data, PassesFirst(f, k), CriterionFn(f, k), PassesFirst(f, k + 1));
    } else {
      FilterAgree(data, PassesFirst(f, k + 1), PassesFirst(f, k));
    }
  }

  /** The list after the first `k` steps of `findWithFilters`: each active test narrows it once more. */
  function Narrowed(data: seq<Product>, f: ProductFilter, k: nat): seq<Product> {
    if k == 0 then data
    else if Active(f, k - 1) then Filter(Narrowed(data, f, k - 1), CriterionFn(f, k - 1))
    else Narrowed(data, f, k - 1)
  }

  /** Narrowing step by step keeps exactly the products passing the first k tests. */
  lemma {:induction false} NarrowedIsFiltered(data: seq<Product>, f: ProductFilter, k: nat)
    ensures Narrowed(data, f, k) == Filter(data, PassesFirst(f, k))
  {
    if k == 0 {
      FilterKeepsAll(data, PassesFirst(f, 0));
    } else {
      NarrowedIsFiltered(data, f, k - 1);
      Narrow(data, f, k - 1);
    }
  }

  lemma AllTests(data: seq<Product>, f: ProductFilter)
    ensures Filter(data, PassesFirst(f, 0)) == data
    ensures Filter(data, PassesFirst(f, 8)) == Filter(data, PassesFn(f))
  {
    FilterKeepsAll(data, PassesFirst(f, 0));
    forall p ensures PassesFirst(f, 8)(p) == Passes(f, p) {
      assert Criterion(f, 0, p) && Criterion(f, 1, p) && Criterion(f, 2, p) && Criterion(f, 3, p) &&
             Criterion(f, 4, p) && Criterion(f, 5, p) && Criterion(f, 6, p) && Criterion(f, 7, p)
             <==> Passes(f, p);
    }
    FilterAgree(data, PassesFirst(f, 8), PassesFn(f));
  }

  /** A product is listed exactly when it is stored and passes every supplied filter, as often as it is stored. */
  lemma FilteredSpec(data: seq<Product>, f: ProductFilter)
    ensures forall p :: p in Filter(data, PassesFn(f)) <==> p in data && Passes(f, p)
    ensures forall p :: multiset(Filter(data, PassesFn(f)))[p] == if Passes(f, p) then multiset(data)[p] else 0
  {
    FilterContains(data, PassesFn(f));
    FilterCounts(data, PassesFn(f));
  }

  /** Without any filter the whole table is listed. */
  lemma NoFilterListsAll(data: seq<Product>)
    ensures Filter(data, PassesFn(NoFilter)) == data
  {
    FilterKeepsAll(data, PassesFn(NoFilter));
  }

  /** An empty search text filters nothing. */
  lemma EmptySearchIgnored(data: seq<Product>, f: ProductFilter)
    requires f.search == Some("")
    ensures Filter(data, PassesFn(f)) == Filter(data, PassesFn(f.(search := None)))
  {
    var g := f.(search := None);
    forall i | 0 <= i < |data| ensures PassesFn(f)(data[i]) == PassesFn(g)(data[i]) {
      assert Passes(f, data[i]) == Passes(g, data[i]);
    }
    FilterAgree(data, PassesFn(f), PassesFn(g));
  }

  // ---------------------------------------------------------------- sort

  datatype SortField = Price | Rating | CreatedAt | Name

  /** `SortOptions<Product>` for the four fields the sort schema admits. */
  datatype ProductSort = ProductSort(field: SortField, direction: Direction)

  function PriceOf(p: Product): int { p.price }
  function RatingOf(p: Product): int { p.rating10 }
  function CreatedAtOf(p: Product): string { p.createdAt }
  function NameOf(p: Product): string { p.name }

  /** Ascending order on one field: numbers by value, strings by the collation. */
  function FieldOrder(field: SortField, collate: (string, string) -> bool): (Product, Product) -> bool {
    match field
    case Price => ByKey(PriceOf)
    case Rating => ByKey(RatingOf)
    case CreatedAt => On(collate, CreatedAtOf)
    case Name => On(collate, NameOf)
  }

  /** The comparator `findWithFilters` hands to `sort`, as an order; 'desc' swaps the operands. */
  function Order(sort: ProductSort, collate: (string, string) -> bool): (Product, Product) -> bool {
    if sort.direction == Asc then FieldOrder(sort.field, collate) else Flip(FieldOrder(sort.field, collate))
  }

  /** For a consistent collation, every sort the catalogue admits is a total preorder. */
  lemma OrderPreorder(sort: ProductSort, collate: (string, string) -> bool)
    requires TotalPreorder(collate)
    ensures TotalPreorder(Order(sort, collate))
  {
    var le := FieldOrder(sort.field, collate);
    match sort.field {
      case Price => ByKeyPreorder(PriceOf);
      case Rating => ByKeyPreorder(RatingOf);
      case CreatedAt => OnPreorder(collate, CreatedAtOf);
      case Name => OnPreorder(collate, NameOf);
    }
    assert TotalPreorder(le);
    if sort.direction == Desc {
      FlipPreorder(le);
    }
  }

  function SortedBy(s: seq<Product>, sort: Option<ProductSort>, collate: (string, string) -> bool): seq<Product> {
    if sort.None? then s else StableSort(s, Order(sort.value, collate))
  }

  // ---------------------------------------------------------------- query

  datatype PaginatedResult<T> = PaginatedResult(items: seq<T>, total: int, page: int, limit: int, totalPages: int)

  /** The matching products in listing order: sorted when a sort is given, stored order otherwise. */
  function Listed(data: seq<Product>, f: ProductFilter, sort: Option<ProductSort>,
                  collate: (string, string) -> bool): (m: seq<Product>)
    ensures multiset(m) == multiset(Filter(data, PassesFn(f)))
    ensures sort.None? ==> m == Filter(data, PassesFn(f))
  {
    SortedBy(Filter(data, PassesFn(f)), sort, collate)
  }

  /** What `findWithFilters` returns: one page of the filtered, sorted catalogue. */
  function Query(data: seq<Product>, f: ProductFilter, pagination: Pagination, sort: Option<ProductSort>,
                 collate: (string, string) -> bool): PaginatedResult<Product>
    requires pagination.limit != 0
  {
    var matched := Listed(data, f, sort, collate);
    PaginatedResult(Page(matched, pagination.page, pagination.limit), |matched|, pagination.page,
                    pagination.limit, CeilDiv(|matched|, pagination.limit))
  }

  /** The steps of `findWithFilters` after filtering compute `Query`. */
  lemma QueryIs(data: seq<Product>, f: ProductFilter, pagination: Pagination, sort: Option<ProductSort>,
                collate: (string, string) -> bool, result: seq<Product>, r: PaginatedResult<Product>)
    requires pagination.limit != 0
    requires result == SortedBy(Filter(data, PassesFn(f)), sort, collate)
    requires var start := (pagination.page - 1) * pagination.limit;
             r == PaginatedResult(JsSlice(result, start, start + pagination.limit), |result|, pagination.page,
                                  pagination.limit, CeilDiv(|result|, pagination.limit))
    ensures r == Query(data, f, pagination, sort, collate)
  {
  }

  /**
   * The total is the number of matching products and `totalPages` its
   * ceiling quotient by the limit.
   */
  lemma QueryTotals(data: seq<Product>, f: ProductFilter, pagination: Pagination, sort: Option<ProductSort>,
                    collate: (string, string) -> bool)
    requires pagination.limit >= 1
    ensures var r := Query(data, f, pagination, sort, collate);
            && r.total == |Filter(data, PassesFn(f))|
            && r.totalPages * pagination.limit >= r.total
            && (r.totalPages - 1) * pagination.limit < r.total
  {
    var matched := Listed(data, f, sort, collate);
    var r := Query(data, f, pagination, sort, collate);
    assert |matched| == |multiset(matched)|;
    assert r.total == |matched| && r.totalPages == CeilDiv(|matched|, pagination.limit);
  }

  /**
   * For a page and limit of at least one, the page holds at most `limit`
   * products, taken in order from position `(page - 1) * limit` of the
   * listing, and as many as the listing has from there up to the limit.
   */
  lemma QueryWindow(data: seq<Product>, f: ProductFilter, pagination: Pagination, sort: Option<ProductSort>,
                    collate: (string, string) -> bool)
    requires pagination.page >= 1 && pagination.limit >= 1
    ensures var items := Query(data, f, pagination, sort, collate).items;
            var matched := Listed(data, f, sort, collate);
            var start := (pagination.page - 1) * pagination.limit;
            && |items| <= pagination.limit
            && (forall i :: 0 <= i < |items| ==> 0 <= start + i < |matched| && items[i] == matched[start + i])
            && (start < |matched| ==> |items| == if start + pagination.limit <= |matched| then pagination.limit else |matched| - start)
  {
    var matched := Listed(data, f, sort, collate);
    var items := Query(data, f, pagination, sort, collate).items;
    assert items == Page(matched, pagination.page, pagination.limit);
    PageItems(matched, pagination.page, pagination.limit);
  }

  /** A page is empty exactly when it lies beyond the last page. */
  lemma QueryEmptyBeyond(data: seq<Product>, f: ProductFilter, pagination: Pagination, sort: Option<ProductSort>,
                         collate: (string, string) -> bool)
    requires pagination.page >= 1 && pagination.limit >= 1
    ensures var r := Query(data, f, pagination, sort, collate);
            r.items == [] <==> pagination.page > r.totalPages
  {
    var matched := Listed(data, f, sort, collate);
    var r := Query(data, f, pagination, sort, collate);
    assert r.items == Page(matched, pagination.page, pagination.limit);
    assert r.totalPages == CeilDiv(|matched|, pagination.limit);
    PageWindow(matched, pagination.page, pagination.limit);
  }

  /** Every product on a page is stored and passes every supplied filter. */
  lemma QueryContents(data: seq<Product>, f: ProductFilter, pagination: Pagination, sort: Option<ProductSort>,
                      collate: (string, string) -> bool)
    requires pagination.page >= 1 && pagination.limit >= 1
    ensures forall p :: p in Query(data, f, pagination, sort, collate).items ==> p in data && Passes(f, p)
  {
    var matched := Listed(data, f, sort, collate);
    var items := Query(data, f, pagination, sort, collate).items;
    FilterContains(data, PassesFn(f));
    forall p | p in items ensures p in data && PassesFn(f)(p) {
      var i :| 0 <= i < |items| && items[i] == p;
      assert p in matched;
      assert p in multiset(Filter(data, PassesFn(f)));
    }
  }

  /**
   * With a sort, the matches are in the requested order on the field, and
   * products that compare equal keep their stored order.
   */
  lemma QuerySorted(data: seq<Product>, f: ProductFilter, sort: ProductSort, collate: (string, string) -> bool, k: Product)
    requires TotalPreorder(collate)
    ensures Sorting.SortedBy(SortedBy(Filter(data, PassesFn(f)), Some(sort), collate), Order(sort, collate))
    ensures var le := Order(sort, collate);
            Filter(SortedBy(Filter(data, PassesFn(f)), Some(sort), collate), SameRank(le, k)) ==
            Filter(Filter(data, PassesFn(f)), SameRank(le, k))
  {
    OrderPreorder(sort, collate);
    StableSortSorted(Filter(data, PassesFn(f)), Order(sort, collate));
    StableSortKeepsRanks(Filter(data, PassesFn(f)), Order(sort, collate), k);
  }

  /** Prices ascending: each listed product costs no more than the next. */
  lemma PriceAscending(data: seq<Product>, f: ProductFilter, collate: (string, string) -> bool)
    ensures var s := SortedBy(Filter(data, PassesFn(f)), Some(ProductSort(Price, Asc)), collate);
            forall i, j :: 0 <= i < j < |s| ==> s[i].price <= s[j].price
  {
    ByKeyPreorder(PriceOf);
    assert Order(ProductSort(Price, Asc), collate) == ByKey(PriceOf);
    StableSortSorted(Filter(data, PassesFn(f)), ByKey(PriceOf));
    var s := StableSort(Filter(data, PassesFn(f)), ByKey(PriceOf));
    forall i, j | 0 <= i < j < |s| ensures s[i].price <= s[j].price {
      assert ByKey(PriceOf)(s[i], s[j]);
      assert PriceOf(s[i]) <= PriceOf(s[j]);
    }
  }

  // ---------------------------------------------------------------- repository

  function IsFeatured(p: Product): bool { p.isFeatured }
  function IsNew(p: Product): bool { p.isNew }
  function IsOnSale(p: Product): bool { p.isOnSale }

  function IdIs(id: string): Product -> bool { (p: Product) => p.id == id }
  function SlugIs(slug: string): Product -> bool { (p: Product) => p.slug == slug }
  function CategoryIs(slug: string): Product -> bool { (p: Product) => p.categorySlug == slug }
  function SearchFor(query: string): Product -> bool { p => SearchMatches(p, query) }

  /** Same category as `product`, and not `product` itself. */
  function RelatedTo(product: Product): Product -> bool {
    (p: Product) => p.categorySlug == product.categorySlug && p.id != product.id
  }

  /** `filter(p).slice(0, limit)`: the first `limit` matches in stored order. */
  function FirstMatches(data: seq<Product>, p: Product -> bool, limit: int): (r: seq<Product>)
    ensures r <= Filter(data, p)
    ensures forall i :: 0 <= i < |r| ==> r[i] in data && p(r[i])
    ensures limit >= 0 ==> |r| == if limit <= |Filter(data, p)| then limit else |Filter(data, p)|
  {
    FilterContains(data, p);
    FilterAllSatisfy(data, p);
    JsSlice(Filter(data, p), 0, limit)
  }

  class ProductRepository {
    var data: seq<Product>

    /** Starts from the seed catalogue. */
    constructor ()
      ensures data == InitialProducts()
    {
      data := InitialProducts();
    }

    /** The inherited `findById`: the first product with the id, or null. */
    function FindById(id: string): (r: Option<Product>)
      reads this
      ensures r.None? <==> forall j :: 0 <= j < |data| ==> data[j].id != id
      ensures r.Some? ==> r.value.id == id &&
                          exists i :: 0 <= i < |data| && data[i] == r.value &&
                                      forall j :: 0 <= j < i ==> data[j].id != id
    {
      FindFirst(data, IdIs(id))
    }

    /** `findBySlug`: the first product with the slug, or null. */
    function FindBySlug(slug: string): (r: Option<Product>)
      reads this
      ensures r.None? <==> forall j :: 0 <= j < |data| ==> data[j].slug != slug
      ensures r.Some? ==> r.value.slug == slug &&
                          exists i :: 0 <= i < |data| && data[i] == r.value &&
                                      forall j :: 0 <= j < i ==> data[j].slug != slug
    {
      FindFirst(data, SlugIs(slug))
    }

    /** `findByCategory`: the products of that category, in stored order. */
    function FindByCategory(categorySlug: string): (r: seq<Product>)
      reads this
      ensures forall p :: p in r <==> p in data && p.categorySlug == categorySlug
      ensures forall p :: multiset(r)[p] == if p.categorySlug == categorySlug then multiset(data)[p] else 0
    {
      FilterContains(data, CategoryIs(categorySlug));
      FilterCounts(data, CategoryIs(categorySlug));
      Filter(data, CategoryIs(categorySlug))
    }

    /**
     * `findWithFilters`: narrows a copy of the table by each supplied filter
     * in turn, sorts it when a sort is given, and cuts out the page.
     */
    method FindWithFilters(f: ProductFilter, pagination: Pagination, sort: Option<ProductSort>,
                           collate: (string, string) -> bool)
      returns (r: PaginatedResult<Product>)
      requires pagination.limit != 0
      ensures r == Query(data, f, pagination, sort, collate)
    {
      var result := ApplyFilters(f);
      if sort.Some? {
        result := StableSort(result, Order(sort.value, collate));
      }

      var total := |result|;
      var totalPages := CeilDiv(total, pagination.limit);
      var startIndex := (pagination.page - 1) * pagination.limit;
      var items := JsSlice(result, startIndex, startIndex + pagination.limit);
      r := PaginatedResult(items, total, pagination.page, pagination.limit, totalPages);
      QueryIs(data, f, pagination, sort, collate, result, r);
    }

    /** The filtering half of `findWithFilters`: the eight tests, one after another. */
    method ApplyFilters(f: ProductFilter) returns (result: seq<Product>)
      ensures result == Filter(data, PassesFn(f))
    {
      result := data;
      if f.categorySlug.Some? && f.categorySlug.value != "" {
        result := Filter(result, CriterionFn(f, 0));
      }
      assert result == Narrowed(data, f, 1);
      if f.brands.Some? && |f.brands.value| > 0 {
        result := Filter(result, CriterionFn(f, 1));
      }
      assert result == Narrowed(data, f, 2);
      if f.priceMin.Some? {
        result := Filter(result, CriterionFn(f, 2));
      }
      assert result == Narrowed(data, f, 3);
      if f.priceMax.Some? {
        result := Filter(result, CriterionFn(f, 3));
      }
      assert result == Narrowed(data, f, 4);
      if f.inStock.Some? {
        result := Filter(result, CriterionFn(f, 4));
      }
      assert result == Narrowed(data, f, 5);
      if f.isNew == Some(true) {
        result := Filter(result, CriterionFn(f, 5));
      }
      assert result == Narrowed(data, f, 6);
      if f.isOnSale == Some(true) {
        result := Filter(result, CriterionFn(f, 6));
      }
      assert result == Narrowed(data, f, 7);
      if f.search.Some? && f.search.value != "" {
        result := Filter(result, CriterionFn(f, 7));
      }
      assert result == Narrowed(data, f, 8);
      NarrowedIsFiltered(data, f, 8);
      AllTests(data, f);
    }

    /** `findFeatured(limit = 8)`: the first `limit` featured products. */
    function FindFeatured(limit: int): (r: seq<Product>)
      reads this
      ensures r <= Filter(data, IsFeatured)
      ensures forall i :: 0 <= i < |r| ==> r[i] in data && r[i].isFeatured
      ensures limit >= 0 ==> |r| == if limit <= |Filter(data, IsFeatured)| then limit else |Filter(data, IsFeatured)|
    {
      FirstMatches(data, IsFeatured, limit)
    }

    /** `findNew(limit = 8)`: the first `limit` new products. */
    function FindNew(limit: int): (r: seq<Product>)
      reads this
      ensures r <= Filter(data, IsNew)
      ensures forall i :: 0 <= i < |r| ==> r[i] in data && r[i].isNew
      ensures limit >= 0 ==> |r| == if limit <= |Filter(data, IsNew)| then limit else |Filter(data, IsNew)|
    {
      FirstMatches(data, IsNew, limit)
    }

    /** `findOnSale(limit = 8)`: the first `limit` discounted products. */
    function FindOnSale(limit: int): (r: seq<Product>)
      reads this
      ensures r <= Filter(data, IsOnSale)
      ensures forall i :: 0 <= i < |r| ==> r[i] in data && r[i].isOnSale
      ensures limit >= 0 ==> |r| == if limit <= |Filter(data, IsOnSale)| then limit else |Filter(data, IsOnSale)|
    {
      FirstMatches(data, IsOnSale, limit)
    }

    /**
     * `search(query, limit?)`: the products whose name, short description or
     * brand contains the query, ignoring case; a missing or zero limit
     * returns every match.
     */
    function Search(query: string, limit: Option<int>): (r: seq<Product>)
      reads this
      ensures r <= Filter(data, SearchFor(query))
      ensures forall i :: 0 <= i < |r| ==> r[i] in data && SearchMatches(r[i], query)
      ensures limit.None? || limit == Some(0) ==> r == Filter(data, SearchFor(query))
      ensures limit.Some? && limit.value > 0 ==>
                |r| == if limit.value <= |Filter(data, SearchFor(query))| then limit.value
                       else |Filter(data, SearchFor(query))|
    {
      FilterContains(data, SearchFor(query));
      FilterAllSatisfy(data, SearchFor(query));
      if limit.Some? && limit.value != 0 then FirstMatches(data, SearchFor(query), limit.value)
      else Filter(data, SearchFor(query))
    }

    /**
     * `findRelated(product, limit = 4)`: up to `limit` other products of the
     * same category, never the product itself.
     */
    function FindRelated(product: Product, limit: int): (r: seq<Product>)
      reads this
      ensures r <= Filter(data, RelatedTo(product))
      ensures forall i :: 0 <= i < |r| ==> r[i] in data && r[i].categorySlug == product.categorySlug && r[i].id != product.id
      ensures limit >= 0 ==>
                |r| == if limit <= |Filter(data, RelatedTo(product))| then limit else |Filter(data, RelatedTo(product))|
    {
      FirstMatches(data, RelatedTo(product), limit)
    }

    /**
     * `getBrands`: every brand once, in the default string order, so the
     * list is strictly increasing and holds exactly the stored brands.
     */
    function GetBrands(): (r: seq<string>)
      reads this
      ensures forall i, j :: 0 <= i < j < |r| ==> StrLt(r[i], r[j])
      ensures forall b :: b in r <==> exists j :: 0 <= j < |data| && data[j].brand == b
    {
      Brands(data)
    }
  }

  function BrandsOf(data: seq<Product>): (r: seq<string>)
    ensures |r| == |data|
    ensures forall j :: 0 <= j < |data| ==> r[j] == data[j].brand
  {
    if data == [] then [] else [data[0].brand] + BrandsOf(data[1..])
  }

  /** The distinct brands, sorted. */
  function Brands(data: seq<Product>): (r: seq<string>)
    ensures forall i, j :: 0 <= i < j < |r| ==> StrLt(r[i], r[j])
    ensures forall b :: b in r <==> exists j :: 0 <= j < |data| && data[j].brand == b
  {
    var unique := Dedup(BrandsOf(data));
    BrandsInOrder(unique);
    StableSort(unique, StrLe)
  }

  /** Sorting distinct strings in the default order makes them strictly increasing. */
  lemma BrandsInOrder(unique: seq<string>)
    requires forall i, j :: 0 <= i < j < |unique| ==> unique[i] != unique[j]
    ensures forall i, j :: 0 <= i < j < |StableSort(unique, StrLe)| ==>
              StrLt(StableSort(unique, StrLe)[i], StableSort(unique, StrLe)[j])
    ensures forall b :: b in StableSort(unique, StrLe) <==> b in unique
  {
    StrLePreorder();
    var r := StableSort(unique, StrLe);
    StableSortSorted(unique, StrLe);
    forall i, j | 0 <= i < j < |r| ensures StrLt(r[i], r[j]) {
      DistinctAfterSort(unique, r, i, j);
    }
    forall b ensures b in r <==> b in unique {
      assert b in r <==> b in multiset(r);
    }
  }

  lemma DistinctAfterSort(unique: seq<string>, r: seq<string>, i: int, j: int)
    requires forall a, b :: 0 <= a < b < |unique| ==> unique[a] != unique[b]
    requires multiset(r) == multiset(unique)
    requires 0 <= i < j < |r|
    requires StrLe(r[i], r[j])
    ensures StrLt(r[i], r[j])
  {
    if r[i] == r[j] {
      var x := r[i];
      assert multiset(r)[x] >= 2 by {
        assert r == r[..i] + [r[i]] + r[i + 1..j] + [r[j]] + r[j + 1..];
      }
      DistinctCount(unique, x);
      assert false;
    }
  }

  lemma {:induction false} DistinctCount<T>(s: seq<T>, x: T)
    requires forall a, b :: 0 <= a < b < |s| ==> s[a] != s[b]
    ensures multiset(s)[x] <= 1
  {
    if s != [] {
      DistinctCount(s[1..], x);
      assert s == [s[0]] + s[1..];
      if s[0] == x {
        assert x !in s[1..];
      }
    }
  }

  /** The seed catalogue. */
  function InitialProducts(): (r: seq<Product>)
    ensures |r| == 12
  {
    seq(12, i requires 0 <= i < 12 => SeedProduct(i + 1))
  }

  /** The n-th seed product. */
  function SeedProduct(n: nat): Product
    requires 1 <= n <= 12
  {
    match n
    case 1 =>
      Product("prod-1", "ASUS ROG Strix G16 Gaming Laptop", "asus-rog-strix-g16",
              "Intel Core i7-13650HX, RTX 4060, 16GB RAM, 512GB SSD",
              149990, Some(169990), ["https://images.unsplash.com/photo-1603302576837-37561b2e2302?w=600", "https://images.unsplash.com/photo-1525547719571-a2d4ac8945e2?w=600"],
              "1-1", "laptops", "ASUS", "ASUS-ROG-G16-001",
              true, 15, 48, 124, true, true, true, "2024-01-15")
    case 2 =>
      Product("prod-2", "Apple MacBook Pro 14\" M3 Pro", "macbook-pro-14-m3-pro",
              "Apple M3 Pro, 18GB RAM, 512GB SSD, Liquid Retina XDR",
              249990, None, ["https://images.unsplash.com/photo-1517336714731-489689fd1ca8?w=600"],
              "1-1", "laptops", "Apple", "APPLE-MBP14-M3P",
              true, 8, 49, 89, false, true, false, "2024-02-01")
    case 3 =>
      Product("prod-3", "NVIDIA GeForce RTX 4080 Super Founders Edition", "nvidia-rtx-4080-super-fe",
              "16GB GDDR6X, 2550MHz, 320-bit",
              119990, Some(134990), ["https://images.unsplash.com/photo-1591488320449-011701bb6704?w=600"],
              "2-2", "graphics-cards", "NVIDIA", "NV-RTX4080S-FE",
              true, 5, 47, 67, false, true, true, "2024-01-20")
    case 4 =>
      Product("prod-4", "AMD Radeon RX 7900 XTX", "amd-rx-7900-xtx",
              "24GB GDDR6, 2500MHz, 384-bit",
              104990, None, ["https://images.unsplash.com/photo-1587202372775-e229f172b9d7?w=600"],
              "2-2", "graphics-cards", "AMD", "AMD-RX7900XTX",
              true, 12, 46, 45, false, false, false, "2024-01-10")
    case 5 =>
      Product("prod-5", "Intel Core i9-14900K", "intel-core-i9-14900k",
              "24 ядра, 32 потока, до 6.0 GHz, LGA1700",
              54990, None, ["https://images.unsplash.com/photo-1555617981-dac3880eac6e?w=600"],
              "2-1", "processors", "Intel", "INTEL-I9-14900K",
              true, 20, 48, 156, false, true, false, "2024-01-05")
    case 6 =>
      Product("prod-6", "AMD Ryzen 9 7950X3D", "amd-ryzen-9-7950x3d",
              "16 ядер, 32 потока, до 5.7 GHz, AM5",
              59990, None, ["https://images.unsplash.com/photo-1591799264318-7e6ef8ddb7ea?w=600"],
              "2-1", "processors", "AMD", "AMD-R9-7950X3D",
              true, 10, 49, 98, true, true, false, "2024-02-10")
    case 7 =>
      Product("prod-7", "Samsung Odyssey G9 49\" DQHD", "samsung-odyssey-g9-49",
              "49\" VA, 5120x1440, 240Hz, 1ms, HDR1000",
              129990, Some(149990), ["https://images.unsplash.com/photo-1527443224154-c4a3942d3acf?w=600"],
              "3-1", "monitors", "Samsung", "SAM-G9-49-240",
              true, 4, 47, 34, false, false, true, "2024-01-25")
    case 8 =>
      Product("prod-8", "LG UltraGear 27GP850-B", "lg-ultragear-27gp850",
              "27\" Nano IPS, 2560x1440, 180Hz, 1ms",
              44990, None, ["https://images.unsplash.com/photo-1616763355603-9755a640a287?w=600"],
              "3-1", "monitors", "LG", "LG-27GP850-B",
              true, 18, 46, 78, false, false, false, "2024-01-08")
    case 9 =>
      Product("prod-9", "Samsung 990 Pro 2TB NVMe", "samsung-990-pro-2tb",
              "2TB, PCIe 4.0 x4, 7450/6900 MB/s",
              18990, Some(22990), ["https://images.unsplash.com/photo-1597872200969-2b65d56bd16b?w=600"],
              "2-4", "ssd", "Samsung", "SAM-990PRO-2TB",
              true, 35, 49, 234, false, true, true, "2024-01-12")
    case 10 =>
      Product("prod-10", "Keychron Q1 Pro Mechanical Keyboard", "keychron-q1-pro",
              "75%, Gateron G Pro, RGB, Bluetooth/USB-C",
              17990, None, ["https://images.unsplash.com/photo-1595225476474-87563907a212?w=600"],
              "3-2", "keyboards", "Keychron", "KEY-Q1-PRO",
              true, 22, 48, 56, true, false, false, "2024-02-05")
    case 11 =>
      Product("prod-11", "Logitech G Pro X Superlight 2", "logitech-gpro-x-superlight-2",
              "60г, HERO 2, 32000 DPI, LIGHTSPEED",
              14990, None, ["https://images.unsplash.com/photo-1527814050087-3793815479db?w=600"],
              "3-3", "mice", "Logitech", "LOG-GPROX-SL2",
              true, 28, 49, 189, false, true, false, "2024-01-18")
    case 12 =>
      Product("prod-12", "G.Skill Trident Z5 RGB DDR5-6400 32GB", "gskill-trident-z5-ddr5-6400-32gb",
              "2x16GB, DDR5-6400, CL32, RGB",
              21990, None, ["https://images.unsplash.com/photo-1562976540-1502c2145186?w=600"],
              "2-3", "ram", "G.Skill", "GSK-TZ5-6400-32",
              true, 14, 47, 67, false, false, false, "2024-01-22")
  }
}
