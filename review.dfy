/**
 * Reviews: the review record and its validation predicates, the seed
 * reviews, and the review repository: a product's reviews, their rating
 * statistics, three sorted views and the "helpful" counter.
 *
 * Average ratings are kept in integer tenths: `Math.round(S / n * 10) / 10`
 * is `Average10(S, n) / 10`.
 */
module Reviews {
  import opened Wrappers
  import opened Seqs
  import opened Sorting
  import opened ZodHelpers

  datatype Review = Review(
    id: string,
    productId: string,
    userId: string,
    userName: string,
    userAvatar: Option<string>,
    rating: int,
    title: string,
    content: string,
    pros: seq<string>,
    cons: seq<string>,
    isVerified: bool,
    helpfulCount: int,
    createdAt: string)

  // ---------------------------------------------------------------------
  // Validation

  /** `reviewSchema`: a whole rating from 1 to 5, a title, ten characters of text, a non-negative counter. */
  predicate ValidReview(r: Review) {
    && 1 <= r.rating <= 5
    && |r.title| >= 1
    && |r.content| >= 10
    && r.helpfulCount >= 0
  }

  /** `helpfulCount: z.number().int().nonnegative().default(0)`. */
  function ParseHelpfulCount(count: Option<real>): (r: Option<int>)
    ensures count.None? ==> r == Some(0)
    ensures count.Some? ==> (r.Some? <==> IsInteger(count.value) && count.value >= 0.0)
    ensures count.Some? && r.Some? ==> r.value as real == count.value
  {
    if count.None? then Some(0)
    else if IsInteger(count.value) && count.value >= 0.0 then Some(count.value.Floor)
    else None
  }

  /** `isVerified: z.boolean().default(false)`. */
  function ParseVerified(verified: Option<bool>): (r: bool)
    ensures r <==> verified == Some(true)
  {
    verified.GetOr(false)
  }

  /** The body of a new review, before validation. */
  datatype CreateReviewRequest = CreateReviewRequest(
    productId: string,
    rating: real,
    title: string,
    content: string,
    pros: Option<seq<string>>,
    cons: Option<seq<string>>)

  /** `createReviewRequestSchema`: the same rating, title and text rules as a stored review. */
  predicate ValidCreateReview(req: CreateReviewRequest) {
    && IsInteger(req.rating) && 1.0 <= req.rating <= 5.0
    && |req.title| >= 1
    && |req.content| >= 10
  }

  /**
   * A review's statistics: the mean rating in tenths, the number of
   * reviews, and the number rated 1 to 5 (`distribution[k - 1]` for `k`).
   */
  datatype ReviewStats = ReviewStats(average10: int, totalReviews: int, distribution: seq<int>)

  const ZeroStats := ReviewStats(0, 0, [0, 0, 0, 0, 0])

  /** `reviewStatsSchema`: a mean between 0 and 5 and five non-negative counts. */
  predicate ValidStats(s: ReviewStats) {
    && 0 <= s.average10 <= 50
    && s.totalReviews >= 0
    && |s.distribution| == 5
    && forall k :: 0 <= k < 5 ==> s.distribution[k] >= 0
  }

  // ---------------------------------------------------------------------
  // Statistics

  function RatingOf(r: Review): int { r.rating }
  function HelpfulOf(r: Review): int { r.helpfulCount }
  function RatingIs(k: int): Review -> bool { (r: Review) => r.rating == k }

  /** How many of the reviews are rated `k`. */
  function CountRating(reviews: seq<Review>, k: int): (r: nat)
    ensures r <= |reviews|
  {
    |Filter(reviews, RatingIs(k))|
  }

  function Distribution(reviews: seq<Review>): (r: seq<int>)
    ensures |r| == 5
  {
    seq(5, k requires 0 <= k < 5 => CountRating(reviews, k + 1))
  }

  /**
   * `Math.round(sum / n * 10)`, the mean in tenths rounded half up: ten
   * times the mean lies within half a unit of the result, a tie going up.
   */
  function Average10(sum: int, n: int): (r: int)
    requires n > 0
    ensures 2 * n * r <= 20 * sum + n < 2 * n * r + 2 * n
  {
    (20 * sum + n) / (2 * n)
  }

  /** The statistics of a list of reviews; all zero for no reviews. */
  function StatsOf(reviews: seq<Review>): (s: ReviewStats)
    ensures reviews == [] ==> s == ZeroStats
    ensures s.totalReviews == |reviews| && |s.distribution| == 5
    ensures forall k :: 1 <= k <= 5 ==> s.distribution[k - 1] == CountRating(reviews, k)
    ensures reviews != [] ==> s.average10 == Average10(SumOf(reviews, RatingOf), |reviews|)
  {
    if reviews == [] then ZeroStats
    else ReviewStats(Average10(SumOf(reviews, RatingOf), |reviews|), |reviews|, Distribution(reviews))
  }

  lemma CountStep(reviews: seq<Review>, x: Review, k: int)
    ensures CountRating(reviews + [x], k) == CountRating(reviews, k) + if x.rating == k then 1 else 0
  {
    FilterAppend(reviews, [x], RatingIs(k));
    assert [x][1..] == [];
  }

  /** One more review raises its own rating's count and no other. */
  lemma DistributionStep(reviews: seq<Review>, x: Review)
    ensures Distribution(reviews + [x]) ==
              if 1 <= x.rating <= 5
              then Distribution(reviews)[x.rating - 1 := Distribution(reviews)[x.rating - 1] + 1]
              else Distribution(reviews)
  {
    forall k | 1 <= k <= 5 ensures CountRating(reviews + [x], k) ==
                                   CountRating(reviews, k) + if x.rating == k then 1 else 0 {
      CountStep(reviews, x, k);
    }
  }

  lemma SumStep(reviews: seq<Review>, x: Review)
    ensures SumOf(reviews + [x], RatingOf) == SumOf(reviews, RatingOf) + x.rating
  {
    SumOfAppend(reviews, [x], RatingOf);
    assert [x][1..] == [];
  }

  /**
   * `getStats` / `getReviewStats` after the product's reviews are chosen:
   * one pass that counts each rating and adds the ratings up.
   */
  method ComputeStats(reviews: seq<Review>) returns (s: ReviewStats)
    ensures s == StatsOf(reviews)
  {
    if |reviews| == 0 {
      return ZeroStats;
    }
    var distribution := [0, 0, 0, 0, 0];
    var totalRating := 0;
    assert reviews[..0] == [];
    for i := 0 to |reviews|
      invariant distribution == Distribution(reviews[..i])
      invariant totalRating == SumOf(reviews[..i], RatingOf)
    {
      var rating := reviews[i].rating;
      assert reviews[..i + 1] == reviews[..i] + [reviews[i]];
      DistributionStep(reviews[..i], reviews[i]);
      SumStep(reviews[..i], reviews[i]);
      if 1 <= rating <= 5 {
        distribution := distribution[rating - 1 := distribution[rating - 1] + 1];
      }
      totalRating := totalRating + rating;
    }
    assert reviews[..|reviews|] == reviews;
    s := ReviewStats(Average10(totalRating, |reviews|), |reviews|, distribution);
  }

  /** With every rating from 1 to 5, the five counts add up to the number of reviews. */
  lemma {:induction false} DistributionTotal(reviews: seq<Review>)
    requires forall i :: 0 <= i < |reviews| ==> 1 <= reviews[i].rating <= 5
    ensures var d := Distribution(reviews); d[0] + d[1] + d[2] + d[3] + d[4] == |reviews|
  {
    if reviews != [] {
      var init := reviews[..|reviews| - 1];
      var x := reviews[|reviews| - 1];
      assert reviews == init + [x];
      DistributionTotal(init);
      DistributionStep(init, x);
    }
  }

  /** With every rating from 1 to 5, the ratings add up to between `n` and `5 n`. */
  lemma {:induction false} SumBounds(reviews: seq<Review>)
    requires forall i :: 0 <= i < |reviews| ==> 1 <= reviews[i].rating <= 5
    ensures |reviews| <= SumOf(reviews, RatingOf) <= 5 * |reviews|
  {
    if reviews != [] {
      SumBounds(reviews[1..]);
    }
  }

  /** With every rating from 1 to 5, a non-empty mean lies between 1.0 and 5.0. */
  lemma AverageBounds(sum: int, n: int)
    requires n > 0 && n <= sum <= 5 * n
    ensures 10 <= Average10(sum, n) <= 50
  {
    var r := Average10(sum, n);
    if r < 10 {
      MulMonotone(r + 1, 10, 2 * n);
    }
    if r > 50 {
      MulMonotone(51, r, 2 * n);
    }
  }

  /** The statistics of valid reviews satisfy the statistics schema, and the counts add up. */
  lemma StatsValid(reviews: seq<Review>)
    requires forall i :: 0 <= i < |reviews| ==> ValidReview(reviews[i])
    ensures ValidStats(StatsOf(reviews))
    ensures var d := StatsOf(reviews).distribution;
            d[0] + d[1] + d[2] + d[3] + d[4] == StatsOf(reviews).totalReviews
    ensures reviews != [] ==> 10 <= StatsOf(reviews).average10
  {
    if reviews != [] {
      SumBounds(reviews);
      AverageBounds(SumOf(reviews, RatingOf), |reviews|);
      DistributionTotal(reviews);
    }
  }

  // ---------------------------------------------------------------------
  // Sorted views

  /** The orders `findByProductIdSorted` offers; `date` is the default. */
  datatype SortBy = ByDate | ByRating | ByHelpful

  /** A review's date as `new Date(createdAt).getTime()` reads it, through the given clock parser. */
  function TimeKey(timeOf: string -> int): Review -> int {
    (r: Review) => timeOf(r.createdAt)
  }

  /**
   * The sort key of each order; each comparator is `(a, b) => key(b) - key(a)`,
   * descending by the key.
   */
  function SortKey(sortBy: SortBy, timeOf: string -> int): Review -> int {
    match sortBy
    case ByRating => RatingOf
    case ByHelpful => HelpfulOf
    case ByDate => TimeKey(timeOf)
  }

  /**
   * A sorted copy of a list of reviews: a rearrangement of it in which the
   * sort key never increases.
   */
  function SortedView(reviews: seq<Review>, sortBy: SortBy, timeOf: string -> int): (r: seq<Review>)
    ensures multiset(r) == multiset(reviews)
    ensures forall i, j :: 0 <= i < j < |r| ==> SortKey(sortBy, timeOf)(r[i]) >= SortKey(sortBy, timeOf)(r[j])
  {
    SortOnKey(reviews, SortKey(sortBy, timeOf), true)
  }

  // ---------------------------------------------------------------------
  // Seed reviews

  function InitialReviews(): (r: seq<Review>)
    ensures |r| == 4
  {
    seq(4, i requires 0 <= i < 4 => SeedReview(i + 1))
  }

  function SeedReview(n: nat): Review
    requires 1 <= n <= 4
  {
    match n
    case 1 => Review(
      "review-1", "prod-1", "user-2", "Алексей К.", None, 5,
      "Отличный игровой ноутбук!",
      "Купил для игр и работы с 3D графикой. Очень доволен производительностью. RTX 4060 тянет все современные игры на высоких настройках.",
      ["Мощная видеокарта", "Качественный экран", "Хорошее охлаждение"],
      ["Тяжеловат для переноски"],
      true, 24, "2024-01-18T10:00:00Z")
    case 2 => Review(
      "review-2", "prod-1", "user-3", "Мария П.",
      Some("https://images.unsplash.com/photo-1494790108377-be9c29b29330?w=50"), 4,
      "Хороший выбор за свои деньги",
      "Ноутбук справляется со всеми задачами. Единственное - батарея держит не очень долго при высокой нагрузке.",
      ["Производительность", "Дизайн", "Клавиатура с RGB"],
      ["Время работы от батареи"],
      true, 15, "2024-01-20T14:30:00Z")
    case 3 => Review(
      "review-3", "prod-3", "user-4", "Дмитрий С.", None, 5,
      "Топ за свои деньги",
      "Отличная видеокарта для 4K гейминга. Все игры летают на ультра настройках.",
      ["Производительность в играх", "DLSS 3", "Ray Tracing"],
      [],
      true, 45, "2024-01-15T09:00:00Z")
    case 4 => Review(
      "review-4", "prod-9", "user-5", "Игорь В.", None, 5,
      "Невероятная скорость!",
      "После HDD это просто космос. Система грузится за секунды, игры загружаются мгновенно.",
      ["Скорость чтения/записи", "Надежность", "Температурный режим"],
      [],
      true, 67, "2024-01-22T16:00:00Z")
  }

  // ---------------------------------------------------------------------
  // Repository

  function IdIs(id: string): Review -> bool { (r: Review) => r.id == id }
  function ProductIs(productId: string): Review -> bool { (r: Review) => r.productId == productId }

  /** The table after `incrementHelpful`: the first review with the id one vote more, or no change. */
  function HelpfulIncremented(data: seq<Review>, reviewId: string): (r: seq<Review>)
    ensures |r| == |data|
  {
    var i := FindIndex(data, IdIs(reviewId));
    if i == -1 then data else data[i := data[i].(helpfulCount := data[i].helpfulCount + 1)]
  }

  /**
   * An unknown id changes nothing; otherwise the first review with the id
   * gains exactly one vote and nothing else changes. No counter ever
   * decreases.
   */
  lemma HelpfulIncrementedSpec(data: seq<Review>, reviewId: string)
    ensures var i := FindIndex(data, IdIs(reviewId));
            var r := HelpfulIncremented(data, reviewId);
            && (i == -1 ==> r == data)
            && (i != -1 ==> forall j :: 0 <= j < |data| && j != i ==> r[j] == data[j])
            && (i != -1 ==> r[i].helpfulCount == data[i].helpfulCount + 1)
            && (i != -1 ==> r[i].(helpfulCount := data[i].helpfulCount) == data[i])
            && (forall j :: 0 <= j < |data| ==> r[j].helpfulCount >= data[j].helpfulCount)
  {
  }

  /** The reviews of a product, in the given order, each as often as given. */
  function ReviewsOfProduct(data: seq<Review>, productId: string): (r: seq<Review>)
    ensures forall x :: x in r <==> x in data && x.productId == productId
    ensures forall x :: multiset(r)[x] == if x.productId == productId then multiset(data)[x] else 0
  {
    FilterContains(data, ProductIs(productId));
    FilterCounts(data, ProductIs(productId));
    Filter(data, ProductIs(productId))
  }

  class ReviewRepository {
    var data: seq<Review>

    /** Starts from the seed reviews. */
    constructor ()
      ensures data == InitialReviews()
    {
      data := InitialReviews();
    }

    /** The inherited `findById`: the first review with the id, or null. */
    function FindById(id: string): (r: Option<Review>)
      reads this
      ensures r.None? <==> forall j :: 0 <= j < |data| ==> data[j].id != id
      ensures r.Some? ==> r.value.id == id &&
                          exists i :: 0 <= i < |data| && data[i] == r.value &&
                                      forall j :: 0 <= j < i ==> data[j].id != id
    {
      FindFirst(data, IdIs(id))
    }

    /** `findByProductId`: the product's reviews, in stored order. */
    function FindByProductId(productId: string): (r: seq<Review>)
      reads this
      ensures forall x :: x in r <==> x in data && x.productId == productId
      ensures forall x :: multiset(r)[x] == if x.productId == productId then multiset(data)[x] else 0
    {
      ReviewsOfProduct(data, productId)
    }

    /** `getStats`: the statistics of the product's reviews. */
    method GetStats(productId: string) returns (s: ReviewStats)
      ensures s == StatsOf(FindByProductId(productId))
    {
      var productReviews := FindByProductId(productId);
      s := ComputeStats(productReviews);
    }

    /**
     * `findByProductIdSorted`: a sorted copy of the product's reviews,
     * descending by date, rating or helpful votes; the table itself is
     * left as it is.
     */
    function FindByProductIdSorted(productId: string, sortBy: SortBy, timeOf: string -> int): (r: seq<Review>)
      reads this
      ensures multiset(r) == multiset(FindByProductId(productId))
      ensures forall i, j :: 0 <= i < j < |r| ==> SortKey(sortBy, timeOf)(r[i]) >= SortKey(sortBy, timeOf)(r[j])
    {
      SortedView(FindByProductId(productId), sortBy, timeOf)
    }

    /**
     * `incrementHelpful`: one more vote for the first review with the id,
     * true; false and no change for an unknown id.
     */
    method IncrementHelpful(reviewId: string) returns (found: bool)
      modifies this
      ensures data == HelpfulIncremented(old(data), reviewId)
      ensures found <==> old(FindById(reviewId)).Some?
    {
      var index := FindIndex(data, IdIs(reviewId));
      if index == -1 {
        return false;
      }
      data := data[index := data[index].(helpfulCount := data[index].helpfulCount + 1)];
      found := true;
    }
  }

  /** Reviews sharing a sort key keep their stored order in the sorted view. */
  lemma SortedViewStable(repo: ReviewRepository, productId: string, sortBy: SortBy, timeOf: string -> int, v: int)
    ensures var key := SortKey(sortBy, timeOf);
            Filter(repo.FindByProductIdSorted(productId, sortBy, timeOf), KeyIs(key, v)) ==
            Filter(repo.FindByProductId(productId), KeyIs(key, v))
  {
    SameKeyKeepsOrder(repo.FindByProductId(productId), SortKey(sortBy, timeOf), true, v);
  }

  /** `getReviewsByProductId`: the seed reviews of the product, in seed order. */
  function GetReviewsByProductId(productId: string): seq<Review> {
    ReviewsOfProduct(InitialReviews(), productId)
  }

  /** `getReviewStats`: the same statistics, over the seed list rather than a repository. */
  method GetReviewStats(productId: string) returns (s: ReviewStats)
    ensures s == StatsOf(GetReviewsByProductId(productId))
  {
    var productReviews := GetReviewsByProductId(productId);
    s := ComputeStats(productReviews);
  }
}
