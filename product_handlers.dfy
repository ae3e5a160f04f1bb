/**
 * The product API handlers: request validation with its fallbacks, and the
 * calls they make into the product repository.
 */
module ProductHandlers {
  import opened Wrappers
  import opened Seqs
  import opened Text
  import opened ZodHelpers
  import opened Products

  /** The fields `productSortSchema` admits. */
  const SortFields: seq<string> := ["price", "rating", "createdAt", "name"]

  function SortFieldOf(name: string): SortField
    requires name in SortFields
  {
    if name == "price" then Price
    else if name == "rating" then Rating
    else if name == "createdAt" then CreatedAt
    else Name
  }

  /** The sort part of a request as it arrives. */
  datatype RawSort = RawSort(field: string, direction: Option<string>)

  /** The parameters `getProducts` receives, each possibly absent. */
  datatype ProductsRequest = ProductsRequest(filter: Option<ProductFilter>, sort: Option<RawSort>,
                                             page: Option<real>, limit: Option<real>)

  /** What `getProducts` passes on to `findWithFilters`. */
  datatype ProductQuery = ProductQuery(filter: ProductFilter, sort: Option<ProductSort>, pagination: Pagination)

  /**
   * `getProductsRequestSchema.safeParse`: the filter's price bounds must be
   * positive, the sort field one of the four and its direction 'asc' or
   * 'desc', and the page and limit within the pagination bounds.
   */
  function ParseProductsRequest(req: ProductsRequest): (r: Option<ProductQuery>)
    ensures r.Some? <==> && (req.filter.None? || ValidFilter(req.filter.value))
                         && (req.sort.None? || ParseSort(SortFields, req.sort.value.field, req.sort.value.direction).Some?)
                         && ParsePagination(req.page, req.limit).Some?
    ensures r.Some? ==> r.value.pagination == ParsePagination(req.page, req.limit).value
    ensures r.Some? ==> r.value.filter == req.filter.GetOr(NoFilter)
    ensures r.Some? ==> (r.value.sort.Some? <==> req.sort.Some?)
  {
    var pagination := ParsePagination(req.page, req.limit);
    var sort := if req.sort.None? then Some(None)
                else match ParseSort(SortFields, req.sort.value.field, req.sort.value.direction)
                     case None => None
                     case Some(s) => Some(Some(ProductSort(SortFieldOf(s.field), s.direction)));
    if (req.filter.None? || ValidFilter(req.filter.value)) && sort.Some? && pagination.Some? then
      Some(ProductQuery(req.filter.GetOr(NoFilter), sort.value, pagination.value))
    else None
  }

  /** The query `getProducts` falls back to on an invalid request: everything, first page of 12. */
  const Fallback := ProductQuery(NoFilter, None, Pagination(1, 12))

  /**
   * `getProducts`: a valid request is answered with its own filter, sort and
   * page; an invalid one with the first twelve products, unsorted. Either
   * way the page number is at least 1 and the limit between 1 and 100.
   */
  method GetProducts(repo: ProductRepository, req: ProductsRequest, collate: (string, string) -> bool)
    returns (r: PaginatedResult<Product>)
    ensures var q := ParseProductsRequest(req).GetOr(Fallback);
            r == Query(repo.data, q.filter, q.pagination, q.sort, collate)
    ensures r.page >= 1 && 1 <= r.limit <= 100
    ensures |r.items| <= r.limit
  {
    var q := ParseProductsRequest(req).GetOr(Fallback);
    r := repo.FindWithFilters(q.filter, q.pagination, q.sort, collate);
    QueryWindow(repo.data, q.filter, q.pagination, q.sort, collate);
  }

  /** On an invalid request the answer is the first twelve stored products and the full count. */
  lemma FallbackIsFirstPage(data: seq<Product>, collate: (string, string) -> bool)
    ensures var r := Query(data, NoFilter, Pagination(1, 12), None, collate);
            && r.total == |data|
            && r.items == data[..if |data| <= 12 then |data| else 12]
  {
    NoFilterListsAll(data);
    var matched := Listed(data, NoFilter, None, collate);
    assert matched == data;
    assert Page(data, 1, 12) == JsSlice(data, 0, 12);
  }

  /** A placeholder collation for queries that request no sort, where none is consulted. */
  function NoCollation(a: string, b: string): bool { true }

  /**
   * `getProductsByCategory(categorySlug, page = 1, limit = 12)`: one page of
   * the category's products in stored order.
   */
  method GetProductsByCategory(repo: ProductRepository, categorySlug: string, page: int, limit: int)
    returns (r: PaginatedResult<Product>)
    requires limit != 0
    ensures r == Query(repo.data, NoFilter.(categorySlug := Some(categorySlug)), Pagination(page, limit), None,
                       NoCollation)
    ensures page >= 1 && limit >= 1 && categorySlug != "" ==>
              forall i :: 0 <= i < |r.items| ==> r.items[i].categorySlug == categorySlug && r.items[i] in repo.data
  {
    var collate := NoCollation;
    var f := NoFilter.(categorySlug := Some(categorySlug));
    r := repo.FindWithFilters(f, Pagination(page, limit), None, collate);
    if page >= 1 && limit >= 1 {
      QueryContents(repo.data, f, Pagination(page, limit), None, collate);
      forall i | 0 <= i < |r.items| ensures r.items[i] in repo.data && Passes(f, r.items[i]) {
        assert r.items[i] in r.items;
      }
    }
  }

  /** The parameters `searchProducts` receives. */
  datatype SearchRequest = SearchRequest(query: Option<string>, limit: Option<real>)

  /** `searchProductsRequestSchema`: a non-empty query and, if given, a whole limit from 1 to 50. */
  predicate ValidSearch(req: SearchRequest) {
    && req.query.Some? && |req.query.value| >= 1
    && (req.limit.None? || (IsInteger(req.limit.value) && 0.0 < req.limit.value <= 50.0))
  }

  /**
   * `searchProducts`: nothing for an invalid request; otherwise the matching
   * products, at most `limit` of them when a limit is given.
   */
  method SearchProducts(repo: ProductRepository, req: SearchRequest) returns (r: seq<Product>)
    ensures !ValidSearch(req) ==> r == []
    ensures ValidSearch(req) ==> forall i :: 0 <= i < |r| ==> r[i] in repo.data && SearchMatches(r[i], req.query.value)
    ensures ValidSearch(req) && req.limit.None? ==> r == Filter(repo.data, SearchFor(req.query.value))
    ensures ValidSearch(req) && req.limit.Some? ==>
              r <= Filter(repo.data, SearchFor(req.query.value)) &&
              var matches := |Filter(repo.data, SearchFor(req.query.value))|;
              |r| as real == if req.limit.value <= matches as real then req.limit.value else matches as real
  {
    if !ValidSearch(req) {
      return [];
    }
    var limit := if req.limit.None? then None else Some(req.limit.value.Floor);
    r := repo.Search(req.query.value, limit);
  }

  /**
   * `getRelatedProducts(productId, limit = 4)`: nothing for an unknown id;
   * otherwise up to `limit` other products of its category.
   */
  method GetRelatedProducts(repo: ProductRepository, productId: string, limit: int) returns (r: seq<Product>)
    ensures repo.FindById(productId).None? ==> r == []
    ensures forall i :: 0 <= i < |r| ==> r[i] in repo.data && r[i].id != productId &&
                                         r[i].categorySlug == repo.FindById(productId).value.categorySlug
    ensures repo.FindById(productId).Some? ==> r <= Filter(repo.data, RelatedTo(repo.FindById(productId).value))
    ensures repo.FindById(productId).Some? && limit >= 0 ==>
              var matches := |Filter(repo.data, RelatedTo(repo.FindById(productId).value))|;
              |r| == if limit <= matches then limit else matches
  {
    var product := repo.FindById(productId);
    if product.None? {
      return [];
    }
    r := repo.FindRelated(product.value, limit);
  }

  /** `getProductCards(limit = 12)`: the cards of the first `limit` featured products. */
  method GetProductCards(repo: ProductRepository, limit: int) returns (r: seq<ProductCard>)
    ensures |r| == |repo.FindFeatured(limit)|
    ensures forall i :: 0 <= i < |r| ==> r[i] == ToCard(repo.FindFeatured(limit)[i])
    ensures limit >= 0 ==> |r| <= limit
  {
    var products := repo.FindFeatured(limit);
    r := seq(|products|, i requires 0 <= i < |products| => ToCard(products[i]));
  }
}
