/**
 * The review API handlers: the paginated review list with its statistics
 * and fallback, the validation gate of `addReview`, and the "helpful" vote.
 */
module ReviewHandlers {
  import opened Wrappers
  import opened Seqs
  import opened ZodHelpers
  import opened Reviews

  /** The parameters `getReviews` receives, each possibly absent. */
  datatype ReviewsRequest = ReviewsRequest(productId: Option<string>, sortBy: Option<string>,
                                           page: Option<real>, limit: Option<real>)

  /** A validated `getReviews` request. */
  datatype ReviewsQuery = ReviewsQuery(productId: string, sortBy: SortBy, pagination: Pagination)

  /** The `getReviews` answer. */
  datatype ReviewList = ReviewList(reviews: seq<Review>, stats: ReviewStats, total: int, page: int, totalPages: int)

  /** The answer to an invalid request. */
  const EmptyReviewList := ReviewList([], ZeroStats, 0, 1, 0)

  /** `sortBy: z.enum(['date', 'rating', 'helpful']).default('date')`. */
  function ParseSortBy(sortBy: Option<string>): (r: Option<SortBy>)
    ensures sortBy.None? ==> r == Some(ByDate)
    ensures sortBy.Some? ==> (r.Some? <==> sortBy.value in ["date", "rating", "helpful"])
    ensures sortBy == Some("rating") ==> r == Some(ByRating)
    ensures sortBy == Some("helpful") ==> r == Some(ByHelpful)
    ensures sortBy == Some("date") ==> r == Some(ByDate)
  {
    if sortBy.None? || sortBy.value == "date" then Some(ByDate)
    else if sortBy.value == "rating" then Some(ByRating)
    else if sortBy.value == "helpful" then Some(ByHelpful)
    else None
  }

  /**
   * `getReviewsParamsSchema.safeParse`: a product id is required, the sort
   * is one of the three (date by default), and the page and limit are
   * within the pagination bounds.
   */
  function ParseReviewsRequest(req: ReviewsRequest): (r: Option<ReviewsQuery>)
    ensures r.Some? <==> req.productId.Some? && ParseSortBy(req.sortBy).Some? &&
                         ParsePagination(req.page, req.limit).Some?
    ensures r.Some? ==> r.value.productId == req.productId.value
    ensures r.Some? ==> r.value.sortBy == ParseSortBy(req.sortBy).value
    ensures r.Some? ==> r.value.pagination == ParsePagination(req.page, req.limit).value
  {
    var sortBy := ParseSortBy(req.sortBy);
    var pagination := ParsePagination(req.page, req.limit);
    if req.productId.Some? && sortBy.Some? && pagination.Some? then
      Some(ReviewsQuery(req.productId.value, sortBy.value, pagination.value))
    else None
  }

  /** The answer `getReviews` gives over a table of reviews. */
  function ReviewsFor(data: seq<Review>, req: ReviewsRequest, timeOf: string -> int): (r: ReviewList)
    ensures ParseReviewsRequest(req).None? ==> r == EmptyReviewList
  {
    match ParseReviewsRequest(req)
    case None => EmptyReviewList
    case Some(q) =>
      var productReviews := Filter(data, ProductIs(q.productId));
      var sorted := SortedView(productReviews, q.sortBy, timeOf);
      var p := q.pagination;
      ReviewList(Page(sorted, p.page, p.limit), StatsOf(productReviews), |sorted|, p.page,
                 CeilDiv(|sorted|, p.limit))
  }

  /**
   * For a valid request: the statistics are those `getStats` gives for the
   * product, the total is the number of its reviews, the page count is the
   * ceiling of the total over the limit, and the page holds at most `limit`
   * reviews, the slice of the sorted list from `(page - 1) * limit`, each a
   * review of that product.
   */
  lemma ReviewsForSpec(data: seq<Review>, req: ReviewsRequest, timeOf: string -> int, q: ReviewsQuery,
                       sorted: seq<Review>, r: ReviewList)
    requires ParseReviewsRequest(req) == Some(q)
    requires sorted == SortedView(Filter(data, ProductIs(q.productId)), q.sortBy, timeOf)
    requires r == ReviewsFor(data, req, timeOf)
    ensures r.stats == StatsOf(Filter(data, ProductIs(q.productId)))
    ensures r.total == |Filter(data, ProductIs(q.productId))|
    ensures r.page == q.pagination.page
    ensures r.totalPages * q.pagination.limit >= r.total && (r.totalPages - 1) * q.pagination.limit < r.total
    ensures |r.reviews| <= q.pagination.limit
    ensures r.reviews == Page(sorted, q.pagination.page, q.pagination.limit)
    ensures forall x :: x in r.reviews ==> x in data && x.productId == q.productId
  {
    var productReviews := Filter(data, ProductIs(q.productId));
    ReviewsForIs(data, req, timeOf, q, sorted, StatsOf(productReviews));
    PageOfSorted(productReviews, sorted, StatsOf(productReviews), q.pagination, r);
    FilterContains(data, ProductIs(q.productId));
  }

  /** A page cut from a reordering of a product's reviews holds only those reviews. */
  lemma PageOfSorted(productReviews: seq<Review>, sorted: seq<Review>, stats: ReviewStats, p: Pagination,
                     r: ReviewList)
    requires p.page >= 1 && p.limit >= 1
    requires multiset(sorted) == multiset(productReviews)
    requires r == ReviewList(Page(sorted, p.page, p.limit), stats, |sorted|, p.page, CeilDiv(|sorted|, p.limit))
    ensures r.total == |productReviews|
    ensures r.totalPages * p.limit >= r.total && (r.totalPages - 1) * p.limit < r.total
    ensures |r.reviews| <= p.limit
    ensures forall i :: 0 <= i < |r.reviews| ==>
              0 <= (p.page - 1) * p.limit + i < |sorted| && r.reviews[i] == sorted[(p.page - 1) * p.limit + i]
    ensures forall x :: x in r.reviews ==> x in productReviews
  {
    assert |sorted| == |multiset(sorted)| == |productReviews|;
    PageItems(sorted, p.page, p.limit);
    PageMembers(sorted, p.page, p.limit);
    forall x | x in sorted ensures x in productReviews {
      assert x in multiset(sorted);
    }
  }

  /**
   * `getReviews`: the empty answer for an invalid request; otherwise one
   * page of the product's reviews in the requested order, with the
   * product's statistics, the count and the page count.
   */
  method GetReviews(repo: ReviewRepository, req: ReviewsRequest, timeOf: string -> int) returns (r: ReviewList)
    ensures r == ReviewsFor(repo.data, req, timeOf)
  {
    var parsed := ParseReviewsRequest(req);
    if parsed.None? {
      return EmptyReviewList;
    }
    var q := parsed.value;
    var productReviews := repo.FindByProductIdSorted(q.productId, q.sortBy, timeOf);
    var stats := repo.GetStats(q.productId);
    r := PageOf(productReviews, stats, q.pagination);
    ReviewsForIs(repo.data, req, timeOf, q, productReviews, stats);
  }

  /** The page of `getReviews`: the slice of the sorted reviews, their count and the page count. */
  method PageOf(productReviews: seq<Review>, stats: ReviewStats, p: Pagination) returns (r: ReviewList)
    requires p.page >= 1 && p.limit >= 1
    ensures r == ReviewList(Page(productReviews, p.page, p.limit), stats, |productReviews|, p.page,
                            CeilDiv(|productReviews|, p.limit))
  {
    var total := |productReviews|;
    var totalPages := CeilDiv(total, p.limit);
    var startIndex := (p.page - 1) * p.limit;
    var page := JsSlice(productReviews, startIndex, startIndex + p.limit);
    r := ReviewList(page, stats, total, p.page, totalPages);
  }

  /** The last step of `getReviews`: its answer assembled from the sorted list and the statistics. */
  lemma ReviewsForIs(data: seq<Review>, req: ReviewsRequest, timeOf: string -> int, q: ReviewsQuery,
                     sorted: seq<Review>, stats: ReviewStats)
    requires ParseReviewsRequest(req) == Some(q)
    requires sorted == SortedView(Filter(data, ProductIs(q.productId)), q.sortBy, timeOf)
    requires stats == StatsOf(Filter(data, ProductIs(q.productId)))
    ensures ReviewsFor(data, req, timeOf) ==
            ReviewList(Page(sorted, q.pagination.page, q.pagination.limit), stats, |sorted|, q.pagination.page,
                       CeilDiv(|sorted|, q.pagination.limit))
  {
  }

  /** How a call of `addReview` ends: with a value, or with an exception. */
  datatype AddOutcome = Returned(review: Option<Review>) | Threw

  /**
   * `addReview` as written: null for an invalid request; for a valid one the
   * insert runs and the next step calls `reviewRepo.updateProductStats`, a
   * method that neither the review repository nor its base defines, so the
   * call throws and no request ever gets a review back.
   */
  function AddReviewAsWritten(req: Option<CreateReviewRequest>): (r: AddOutcome)
    ensures r.Returned? ==> r.review.None?
    ensures r.Threw? <==> req.Some? && ValidCreateReview(req.value)
  {
    if req.None? || !ValidCreateReview(req.value) then Returned(None) else Threw
  }

  /** A well-formed five-star review: the call throws instead of returning the stored review. */
  lemma AddReviewThrowsOnValidRequest()
    ensures var req := CreateReviewRequest("prod-1", 5.0, "Отлично", "Работает быстро и тихо", None, None);
            ValidCreateReview(req) && AddReviewAsWritten(Some(req)) == Threw
  {
  }

  /**
   * `addReview`, read as intended: null for an invalid request, before
   * anything is written. For a valid one the database stores the review,
   * unverified, with no votes and empty pro and con lists when none are
   * given, and the review is returned; the id and the creation time the
   * database assigns are parameters.
   */
  method AddReview(userId: string, userName: string, req: Option<CreateReviewRequest>, newId: string, now: string)
    returns (r: Option<Review>)
    ensures r.Some? <==> req.Some? && ValidCreateReview(req.value)
    ensures r.Some? <==> AddReviewAsWritten(req).Threw?
    ensures r.Some? ==> && r.value.id == newId && r.value.createdAt == now
                        && r.value.productId == req.value.productId
                        && r.value.userId == userId && r.value.userName == userName
                        && r.value.rating as real == req.value.rating
                        && r.value.title == req.value.title && r.value.content == req.value.content
                        && r.value.pros == req.value.pros.GetOr([]) && r.value.cons == req.value.cons.GetOr([])
                        && !r.value.isVerified && r.value.helpfulCount == 0
    ensures r.Some? ==> ValidReview(r.value)
  {
    if req.None? || !ValidCreateReview(req.value) {
      return None;
    }
    var body := req.value;
    r := Some(Review(newId, body.productId, userId, userName, None, body.rating.Floor, body.title, body.content,
                     body.pros.GetOr([]), body.cons.GetOr([]), false, 0, now));
  }

  /** `markReviewHelpful`: the repository's helpful vote. */
  method MarkReviewHelpful(repo: ReviewRepository, reviewId: string) returns (found: bool)
    modifies repo
    ensures repo.data == HelpfulIncremented(old(repo.data), reviewId)
    ensures found <==> exists j :: 0 <= j < |old(repo.data)| && old(repo.data)[j].id == reviewId
  {
    found := repo.IncrementHelpful(reviewId);
  }

  // ---------------------------------------------------------------------
  // The review route's sort parameter

  /** The sort names the `/api/reviews` route accepts; it defaults to 'createdAt'. */
  const RouteSortNames: seq<string> := ["createdAt", "rating", "helpful"]

  /**
   * As written, the route hands its sort name to `getReviews` unchanged, so
   * a request that leaves the sort at the route's default, 'createdAt',
   * fails `getReviewsParamsSchema` and comes back empty, whatever reviews
   * the product has.
   */
  lemma RouteDefaultSortRejected(data: seq<Review>, productId: string, page: Option<real>, limit: Option<real>,
                                 timeOf: string -> int)
    ensures ReviewsFor(data, ReviewsRequest(Some(productId), Some(RouteSortNames[0]), page, limit), timeOf)
            == EmptyReviewList
  {
  }

  /** The route's sort name translated to the handler's: 'createdAt' is the handler's 'date'. */
  function RouteSortName(name: string): (r: string)
    ensures name == "createdAt" ==> r == "date"
    ensures name != "createdAt" ==> r == name
  {
    if name == "createdAt" then "date" else name
  }

  /**
   * With the translation every sort name the route accepts is one the
   * handler accepts, and the route's default sorts by date.
   */
  lemma RouteSortNamesAccepted(name: string)
    requires name in RouteSortNames
    ensures ParseSortBy(Some(RouteSortName(name))).Some?
    ensures name == "createdAt" ==> ParseSortBy(Some(RouteSortName(name))) == Some(ByDate)
  {
  }
}
