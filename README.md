# complab storefront core in Dafny

A model of the data layer and business rules of a computer-store web application. It covers:

- **Repositories.** Products, categories, orders, reviews, users and their delivery addresses, repair services and repair requests, and hero and promo banners. All are in-memory tables. The source builds them on one generic base repository, `BaseRepository<T>` (modelled by `BaseRepository.Repository`); the model gives each entity its own class holding the same `data` table and the finders it uses, and proves the generic one's contracts once on `BaseRepository.Repository`.
- **API handlers.** The products, orders and reviews handlers, which check their requests against zod schemas before calling a repository.
- **Client stores.** The cart and the signed-in user.
- **Cart page.** How it loads the cart's products and computes the order summary.
- **Shared query helpers.** Repeated query-string keys grouped into arrays, pagination, boolean flags and comma-separated lists.
- **Shared validation helpers.** Pagination, sort, price, the Russian phone-number pattern, `safeParse` and the flattening of validation issues.

The modules follow the source's layout:

- `BaseRepository`, `Products`, `Categories`, `Orders`, `Reviews`, `Users`, `Repairs` and `Banners` hold the entity records, the schemas as predicates, the seed data and the repository classes.
- `ProductHandlers`, `OrderHandlers` and `ReviewHandlers` hold the API handlers.
- `CartStore`, `UserStore` and `CartPage` model the client code.
- `SearchParams` and `ZodHelpers` hold the shared helpers.
- `Seqs`, `Sorting`, `Text` and `Wrappers` model the JavaScript library behaviour the code relies on:
  - `filter`, `find`, `slice`, `Math.ceil`;
  - the stable `Array.prototype.sort`;
  - `toLowerCase`, `includes`, `split`, `join`, `trim`;
  - `String(n)` and `slice(-6)`.

Where the source changes state, the model does too:

- Each repository is a class whose `data` field the state-changing methods reassign: `create`, `update`, `delete`, `updateStatus`, `incrementHelpful`, `setDefault`.
- The cart and user stores are classes with the store's fields.
- The loops of `getStats`, `getBreadcrumbs`, `setDefault`, the query-string grouping, `getValidationErrors` and the cart page's product loading are methods with loop invariants. Each is proved against a specification function, and the functions' properties are proved as lemmas.

Conventions:

- Prices and amounts are whole roubles.
- Ratings and averages are integer tenths of a star: `averageRating` 4.5 is 45.
- JavaScript numbers that reach a schema are exact rationals (`real`).
- The clock, fresh ids, date parsing and string collation are parameters.

## Model

| member | source | states |
|---|---|---|
| BaseRepository.Spread | src/shared/repository/base-repository.ts:212 | `{ ...a, ...b }`: a key of `b` takes `b`'s value, every other key keeps `a`'s, and the keys are the union of both |
| BaseRepository.WithId | src/shared/repository/base-repository.ts:199-202 | the record `create` builds carries the generated id and every other field of the input unchanged |
| BaseRepository.Updated | src/shared/repository/base-repository.ts:207-214 | `update` never changes the table's length |
| BaseRepository.UpdatedSpec | src/shared/repository/base-repository.ts:207-214 | an unknown id changes nothing; otherwise only the first record with the id changes, and in it each patched key takes the patch's value while the other keys keep theirs |
| BaseRepository.DeletedSpec | src/shared/repository/base-repository.ts:216-223 | `delete` changes the table exactly when the id is present, and then removes one record (the first with the id); earlier records stay put, later ones move up by one, and the multiset loses exactly that record |
| BaseRepository.CreatedIsFound | src/shared/repository/base-repository.ts:170-173 | after appending a record with an id no stored record has, `findById` finds that record |
| BaseRepository.SubclassSeedIsLost | src/shared/repository/base-repository.ts:162-164 | as written, neither argument a subclass's `super(db, seed)` call can deliver yields the seed: the connection object makes the spread throw, and no argument gives an empty table |
| BaseRepository.Repository.constructor | src/shared/repository/base-repository.ts:162-164 | the table starts as a copy of the initial records |
| BaseRepository.Repository.FindById | src/shared/repository/base-repository.ts:170-173 | null exactly when no record has the id; otherwise the first record with the id |
| BaseRepository.Repository.FindAll | src/shared/repository/base-repository.ts:175-178 | the whole table, in stored order |
| BaseRepository.Repository.FindMany | src/shared/repository/base-repository.ts:180-187 | each record is listed exactly as often as it is stored if it matches every filter entry by `===`, and not at all otherwise; the empty filter lists the whole table |
| BaseRepository.Repository.Count | src/shared/repository/base-repository.ts:189-195 | the table length without a filter, the number of `findMany` matches with one, and never more than the table length |
| BaseRepository.Repository.Exists | src/shared/repository/base-repository.ts:225-227 | true exactly when some record has the id, which is exactly when `findById` finds one |
| BaseRepository.Repository.Create | src/shared/repository/base-repository.ts:197-205 | appends the input with the new id and returns that record, which `findById` then finds |
| BaseRepository.Repository.Update | src/shared/repository/base-repository.ts:207-214 | null exactly for an unknown id; otherwise the merged record, with the table updated as `Updated` says |
| BaseRepository.Repository.Delete | src/shared/repository/base-repository.ts:216-223 | true exactly when the id existed; the table is then one record shorter, as `Deleted` describes |
| Products.ToCard | src/entities/product/model/schemas.ts:148-164 | the card copies every listed field of the product; its image is the first image, or the placeholder when there is none or it is empty, so it is never empty |
| Products.Narrow | src/entities/product/model/repository.ts:387-416 | each step of `findWithFilters` narrows the list by its test when that test is active and leaves it alone otherwise |
| Products.NarrowedIsFiltered | src/entities/product/model/repository.ts:384-416 | applying the first k steps one after another keeps exactly the products that pass the first k tests |
| Products.AllTests | src/entities/product/model/repository.ts:387-416 | passing all eight tests is passing the filter |
| Products.FilteredSpec | src/entities/product/model/repository.ts:387-416 | a product is listed exactly when it is stored and passes every supplied filter, and as often as it is stored |
| Products.NoFilterListsAll | src/entities/product/model/repository.ts:384-416 | with no filter set, the whole table is listed in stored order |
| Products.EmptySearchIgnored | src/entities/product/model/repository.ts:408 | an empty search text is falsy and filters nothing |
| Products.OrderPreorder | src/entities/product/model/repository.ts:419-435 | for a consistent collation, every comparator the sort can build (price, rating, date, name; ascending or descending) is a total preorder, so the sort is well defined |
| Products.Listed | src/entities/product/model/repository.ts:384-436 | the listing holds the filtered products (same multiset); without a sort it is in stored order |
| Products.QueryIs | src/entities/product/model/repository.ts:438-449 | the steps after filtering (total, page count, slice) compute the page of `Query` |
| Products.QueryTotals | src/entities/product/model/repository.ts:438-439 | the total is the number of matching products and `totalPages` is its ceiling quotient by the limit |
| Products.QueryWindow | src/entities/product/model/repository.ts:440-441 | a page holds at most `limit` products, taken in order from position `(page - 1) * limit` of the listing, and as many as remain up to the limit |
| Products.QueryEmptyBeyond | src/entities/product/model/repository.ts:438-441 | a page is empty exactly when its number exceeds `totalPages` |
| Products.QueryContents | src/entities/product/model/repository.ts:384-441 | every product on a page is stored and passes every supplied filter |
| Products.QuerySorted | src/entities/product/model/repository.ts:419-435 | with a sort, the listing is ordered by the requested field and direction, and products that compare equal keep their stored order |
| Products.PriceAscending | src/entities/product/model/repository.ts:430-431 | sorting by price ascending lists each product at a price no higher than the next one's |
| Products.FirstMatches | src/entities/product/model/repository.ts:457 | `filter(p).slice(0, limit)`: a prefix of the matches, each stored and matching, with exactly `min(limit, matches)` entries |
| Products.ProductRepository.constructor | src/entities/product/model/repository.ts:353-356 | the repository starts from the seed catalogue (the corrected reading of the constructor; see Findings) |
| Products.ProductRepository.FindById | src/shared/repository/base-repository.ts:170-173 | null exactly when no product has the id; otherwise the first stored product with that id |
| Products.ProductRepository.FindBySlug | src/entities/product/model/repository.ts:361-364 | null exactly when no product has the slug; otherwise the first product with it |
| Products.ProductRepository.FindByCategory | src/entities/product/model/repository.ts:369-372 | exactly the products of the category, each as often as it is stored |
| Products.ProductRepository.FindWithFilters | src/entities/product/model/repository.ts:377-450 | the result is `Query`: the filtered, optionally sorted listing, paged, with its total and page count |
| Products.ProductRepository.ApplyFilters | src/entities/product/model/repository.ts:384-416 | the eight filters applied one after another keep exactly the products passing all of them, in stored order |
| Products.ProductRepository.FindFeatured | src/entities/product/model/repository.ts:455-458 | the first `limit` featured products in stored order |
| Products.ProductRepository.FindNew | src/entities/product/model/repository.ts:463-466 | the first `limit` new products in stored order |
| Products.ProductRepository.FindOnSale | src/entities/product/model/repository.ts:471-474 | the first `limit` discounted products in stored order |
| Products.ProductRepository.Search | src/entities/product/model/repository.ts:479-489 | a prefix of the products whose name, short description or brand contains the query (ignoring case); every match when the limit is missing or zero, and with a positive limit exactly the first `limit` matches, or all of them when there are fewer |
| Products.ProductRepository.FindRelated | src/entities/product/model/repository.ts:494-499 | the first `limit` products in stored order (all of them when there are fewer) of the same category as the given product, never that product itself |
| Products.ProductRepository.GetBrands | src/entities/product/model/repository.ts:504-507 | every stored brand exactly once, in strictly increasing default string order |
| Products.Brands | src/entities/product/model/repository.ts:505-506 | the distinct brands, strictly increasing, and exactly the brands of the table |
| Products.BrandsInOrder | src/entities/product/model/repository.ts:506 | sorting distinct brands by the default order makes them strictly increasing and keeps the same set |
| Products.InitialProducts | src/entities/product/model/repository.ts:8-348 | the seed catalogue has twelve products |
| ProductHandlers.ParseProductsRequest | src/entities/product/model/schemas.ts:61-87 | the request is accepted exactly when the filter's price bounds are positive, the sort field and direction are admitted and the page and limit are in range; an accepted request keeps its filter (none means every product), its sort and its pagination |
| ProductHandlers.GetProducts | src/entities/product/api/handlers.ts:19-43 | a valid request is answered with the page its own filter, sort and pagination select; an invalid one falls back to the first page of twelve, unsorted; the page is at least 1, the limit 1 to 100, and the page holds at most `limit` products |
| ProductHandlers.FallbackIsFirstPage | src/entities/product/api/handlers.ts:22-24 | the fallback answer is the first twelve stored products (or all of them when there are fewer) with the full count |
| ProductHandlers.GetProductsByCategory | src/entities/product/api/handlers.ts:48-63 | the page of the category filter, unsorted; for a positive page and limit and a non-empty slug, every product on it is stored and belongs to the category |
| ProductHandlers.SearchProducts | src/entities/product/api/handlers.ts:103-112 | an invalid request (empty query, limit not a whole number from 1 to 50) gives nothing; otherwise the matches, every one stored and matching: all of them without a limit, and with one exactly the first `limit` matches, or all when there are fewer |
| ProductHandlers.GetRelatedProducts | src/entities/product/api/handlers.ts:117-121 | nothing for an unknown id; otherwise the first `limit` stored products of the same category, or all of them when there are fewer, never the product itself |
| ProductHandlers.GetProductCards | src/entities/product/api/handlers.ts:133-136 | one card per featured product returned by `findFeatured(limit)`, in order, each its `mapProductToCard` |
| Orders.ParseStatus | src/entities/order/model/schemas.ts:9-18 | `orderStatusSchema` accepts exactly the eight wire names, each parsing to the status with that name |
| Orders.StatusesComplete | src/entities/order/model/schemas.ts:9-18 | there are exactly eight distinct statuses, and every status's wire name parses back to it |
| Orders.StatusNameParses | src/entities/order/model/schemas.ts:9-18 | the wire name of a status parses back to that status |
| Orders.StatusLabel | src/entities/order/model/schemas.ts:22-31 | every status has a non-empty Russian label |
| Orders.StatusColor | src/entities/order/model/schemas.ts:33-42 | every status has a non-empty badge class |
| Orders.LabelsDistinct | src/entities/order/model/schemas.ts:22-31 | two statuses share a label only when they are the same status |
| Orders.ParsePaymentMethod | src/entities/order/model/schemas.ts:47 | accepts exactly 'card', 'cash' and 'online' |
| Orders.ParsePaymentStatus | src/entities/order/model/schemas.ts:54 | accepts exactly 'pending', 'paid', 'failed' and 'refunded' |
| Orders.ParseDiscount | src/entities/order/model/schemas.ts:96 | a missing discount defaults to 0; a given one is accepted unchanged exactly when it is not negative |
| Orders.InitialOrders | src/entities/order/model/repository.ts:10-122 | the seed has three orders |
| Orders.SeedAmounts | src/entities/order/model/repository.ts:10-122 | every seed order passes the order schema's amount rules, its lines add up to its subtotal, and subtotal plus shipping minus discount is its total |
| Orders.SeedPromoDiscount | src/entities/order/model/repository.ts:55-85 | the second seed order's discount is exactly the WINTER10 percentage of its subtotal |
| Orders.Advanced | src/entities/order/model/repository.ts:164-170 | the order after a status change has the new status and `updatedAt`, its log is the old log plus one entry with the status, timestamp and comment, and every other field is unchanged |
| Orders.StatusUpdated | src/entities/order/model/repository.ts:159-173 | a status update never changes the table's length |
| Orders.StatusUpdatedSpec | src/entities/order/model/repository.ts:159-173 | an unknown id changes nothing; otherwise only the first order with the id changes, it becomes the advanced order, and a new lookup by the id finds it; any status may follow any other |
| Orders.OrderRepository.constructor | src/entities/order/model/repository.ts:127-130 | the repository starts from the seed orders (the corrected reading of the constructor; see Findings) |
| Orders.OrderRepository.FindById | src/shared/repository/base-repository.ts:170-173 | null exactly when no order has the id; otherwise the first stored order with that id |
| Orders.OrderRepository.FindByUserId | src/entities/order/model/repository.ts:135-138 | exactly the user's orders, each as often as it is stored |
| Orders.OrderRepository.FindByOrderNumber | src/entities/order/model/repository.ts:143-146 | null exactly when no order has the number; otherwise the first order with it |
| Orders.OrderRepository.FindByUserIdAndStatus | src/entities/order/model/repository.ts:151-154 | the single pass keeps exactly what `findByUserId` followed by a status filter keeps, in the same order |
| Orders.OrderRepository.UpdateStatus | src/entities/order/model/repository.ts:159-173 | null and no change for an unknown id; otherwise the table is `StatusUpdated` and the returned order is the advanced order, which `findById` now returns |
| Orders.OrderRepository.GenerateOrderNumber | src/entities/order/model/repository.ts:178-180 | "CL-2024-" followed by digits whose value is the clock modulo a million; at most 14 characters, exactly 14 once the clock is at least 100000 ms, and the whole reading without leading zeros below a million |
| Orders.ValidatePromoCode | src/entities/order/model/repository.ts:193-219 | valid exactly when the upper-cased code is in the table, with its discount and type; otherwise invalid, no discount, type 'fixed' and the rejection message |
| Orders.UpperCaseKept | src/entities/order/model/repository.ts:199 | a code of upper-case letters and digits is its own table key |
| Orders.PromoCaseInsensitive | src/entities/order/model/repository.ts:199 | lower- or upper-casing the code does not change the answer |
| Orders.KnownPromoCodes | src/entities/order/model/repository.ts:184-188 | WINTER10 is 10 percent, WELCOME500 is 500 fixed and SALE15 is 15 percent, in any letter case; every other code is invalid |
| OrderHandlers.ParseOrdersRequest | src/entities/order/model/schemas.ts:129-132 | accepted exactly when a user id is given, the status (if any) is one of the eight names and the pagination is in range; the parsed query keeps the user id, the status and the pagination |
| OrderHandlers.Selected | src/entities/order/api/handlers.ts:32-36 | exactly the stored orders of the user, and with the status when one is given |
| OrderHandlers.OrdersFor | src/entities/order/api/handlers.ts:16-26 | an invalid request gets the empty list: no orders, total 0, page 1, no pages |
| OrderHandlers.OrdersForSpec | src/entities/order/api/handlers.ts:28-49 | for a valid request the total counts the selected orders, `totalPages` is the ceiling of total over limit, and the page holds at most `limit` selected orders from position `(page - 1) * limit`, each the user's and with the status when one is given |
| OrderHandlers.GetOrders | src/entities/order/api/handlers.ts:16-50 | the answer is `OrdersFor` over the stored orders |
| OrderHandlers.CreateOrder | src/entities/order/api/handlers.ts:76-94 | always null, both for an invalid request and for a valid one |
| OrderHandlers.CheckPromoCode | src/entities/order/api/handlers.ts:110-112 | the promo check, whose answer is the same for the code in any letter case |
| Reviews.ParseHelpfulCount | src/entities/review/model/schemas.ts:19 | a missing count defaults to 0; a given one is accepted exactly when it is a whole number that is not negative, and is kept unchanged |
| Reviews.ParseVerified | src/entities/review/model/schemas.ts:18 | a review is verified exactly when the flag is given as true; it defaults to false |
| Reviews.CountRating | src/entities/review/model/repository.ts:99-105 | the number of reviews with a given rating never exceeds the number of reviews |
| Reviews.Average10 | src/entities/review/model/repository.ts:108 | `Math.round(sum / n * 10)`: ten times the mean lies within half a unit of the result, and a tie rounds up |
| Reviews.StatsOf | src/entities/review/model/repository.ts:87-112 | no reviews gives all zeros; otherwise the count of reviews, the count of each rating 1 to 5, and the rounded mean of the ratings |
| Reviews.DistributionStep | src/entities/review/model/repository.ts:102-105 | one more review raises the count of its own rating by one and no other count; a rating outside 1 to 5 raises none |
| Reviews.ComputeStats | src/entities/review/model/repository.ts:91-111 | the counting loop computes `StatsOf` of the product's reviews |
| Reviews.DistributionTotal | src/entities/review/model/repository.ts:99-105 | when every rating is from 1 to 5, the five counts add up to the number of reviews |
| Reviews.SumBounds | src/entities/review/model/repository.ts:100-105 | when every rating is from 1 to 5, the ratings add up to between n and 5n |
| Reviews.AverageBounds | src/entities/review/model/repository.ts:108 | a mean of ratings from 1 to 5 rounds to between 1.0 and 5.0 |
| Reviews.StatsValid | src/entities/review/model/schemas.ts:28-38 | the statistics of valid reviews satisfy the statistics schema (mean 0 to 5, non-negative counts), the counts add up to the total, and a non-empty mean is at least 1.0 |
| Reviews.SortedView | src/entities/review/model/repository.ts:124-136 | each sorted view reorders the product's reviews (same multiset), descending by rating, helpful votes or date |
| Reviews.InitialReviews | src/entities/review/model/repository.ts:8-66 | the seed has four reviews |
| Reviews.HelpfulIncremented | src/entities/review/model/repository.ts:144-150 | a helpful vote never changes the table's length |
| Reviews.HelpfulIncrementedSpec | src/entities/review/model/repository.ts:144-150 | an unknown id changes nothing; otherwise the first review with the id gains exactly one vote and nothing else changes, so no counter ever goes down |
| Reviews.ReviewRepository.constructor | src/entities/review/model/repository.ts:71-74 | the repository starts from the seed reviews (the corrected reading of the constructor; see Findings) |
| Reviews.ReviewRepository.FindById | src/shared/repository/base-repository.ts:170-173 | null exactly when no review has the id; otherwise the first stored review with that id |
| Reviews.ReviewRepository.FindByProductId | src/entities/review/model/repository.ts:79-82 | exactly the product's reviews, each as often as it is stored |
| Reviews.ReviewRepository.GetStats | src/entities/review/model/repository.ts:87-112 | the statistics of the product's reviews, `StatsOf(findByProductId(productId))` |
| Reviews.ReviewRepository.FindByProductIdSorted | src/entities/review/model/repository.ts:117-139 | a reordering of the product's reviews that never increases along the chosen key: rating, helpful votes, or date (the default) |
| Reviews.ReviewRepository.IncrementHelpful | src/entities/review/model/repository.ts:144-150 | true exactly when the id exists; the table becomes `HelpfulIncremented` |
| Reviews.SortedViewStable | src/entities/review/model/repository.ts:124-136 | reviews sharing a sort key keep their stored order in the sorted view |
| Reviews.GetReviewStats | src/entities/review/model/repository.ts:166-194 | the statistics of the product's seed reviews, as `getReviewsByProductId` selects them, by the same counting loop as `getStats` |
| ReviewHandlers.ParseSortBy | src/entities/review/model/schemas.ts:66 | the sort defaults to date; exactly 'date', 'rating' and 'helpful' are accepted, each as its own order |
| ReviewHandlers.ParseReviewsRequest | src/entities/review/model/schemas.ts:64-67 | accepted exactly when a product id is given and the sort and pagination are accepted; the query keeps all three |
| ReviewHandlers.ReviewsFor | src/entities/review/api/handlers.ts:22-36 | an invalid request gets the empty answer: no reviews, zero statistics, total 0, page 1, no pages |
| ReviewHandlers.ReviewsForSpec | src/entities/review/api/handlers.ts:38-54 | for a valid request the statistics are the product's, the total counts its reviews, `totalPages` is the ceiling of total over limit, and the page is the slice of the sorted reviews from `(page - 1) * limit`, at most `limit` long, holding only the product's stored reviews |
| ReviewHandlers.PageOfSorted | src/entities/review/api/handlers.ts:43-46 | a page cut from a reordering of the product's reviews holds at most `limit` of them, in the order of the sorted list from position `(page - 1) * limit` |
| ReviewHandlers.GetReviews | src/entities/review/api/handlers.ts:21-55 | the answer is `ReviewsFor` over the stored reviews |
| ReviewHandlers.PageOf | src/entities/review/api/handlers.ts:43-46 | the page is the slice of the sorted reviews, with their count and the page count |
| ReviewHandlers.ReviewsForIs | src/entities/review/api/handlers.ts:38-54 | the answer is assembled from the sorted list and the statistics as `ReviewsFor` says |
| ReviewHandlers.AddReview | src/entities/review/api/handlers.ts:74-121 | (the corrected reading; see Findings) null exactly for an invalid request, and a review exactly where the code as written throws; the returned review carries the request's product, rating, title and text, the author, empty pro and con lists by default, is unverified with no votes, and is itself valid |
| ReviewHandlers.AddReviewAsWritten | src/entities/review/api/handlers.ts:74-104 | as written, no call returns a review: an invalid request gives null, and every valid one throws at the call of the undefined `updateProductStats` |
| ReviewHandlers.AddReviewThrowsOnValidRequest | src/entities/review/api/handlers.ts:104 | a well-formed five-star review makes the call throw |
| ReviewHandlers.MarkReviewHelpful | src/entities/review/api/handlers.ts:126-128 | true exactly when the review exists; the table gains one vote on it |
| ReviewHandlers.RouteDefaultSortRejected | src/app/api/reviews/schemas.ts:11 | as written, a request that leaves the route's sort at its default 'createdAt' fails the handler's sort check and comes back empty |
| ReviewHandlers.RouteSortNamesAccepted | src/entities/review/model/schemas.ts:66 | with 'createdAt' read as 'date', every sort name the route accepts is accepted by the handler, and the route's default sorts by date |
| Reviews.ReviewsOfProduct | src/entities/review/model/repository.ts:81 | the product's reviews, each as often as stored, and no other; `findByProductId` applies it to the table and `getReviewsByProductId` (lines 166-168) to the seed |
| ReviewHandlers.RouteSortName | src/app/api/reviews/schemas.ts:11 | the corrected hand-over: 'createdAt' becomes 'date', every other name is passed unchanged |
| Categories.Crumb | src/entities/category/model/repository.ts:252-256 | a breadcrumb carries the category's id, name and slug |
| Categories.Crumbs | src/entities/category/model/repository.ts:251-260 | one breadcrumb per category of the trail, in the same order |
| Categories.ActiveByOrder | src/entities/category/model/repository.ts:270-272 | the categories passing the test, each as often as it is stored, ascending by `order` |
| Categories.ParentOf | src/entities/category/model/repository.ts:257-259 | the next step of the walk is a stored category whose id is the (truthy) parent id, the first such; there is none exactly when the parent id is falsy or names no stored category |
| Categories.Ancestry | src/entities/category/model/repository.ts:249-260 | the walk from a category visits at least that category, and nothing when the start is unknown |
| Categories.AncestrySpec | src/entities/category/model/repository.ts:249-260 | the trail ends with the start category, every step is stored, every step is the parent of the next, and the walk stops at a category whose parent id is falsy or unknown |
| Categories.CategoryRepository.constructor | src/entities/category/model/repository.ts:203-206 | the repository starts from the seed categories (the corrected reading of the constructor; see Findings) |
| Categories.CategoryRepository.FindById | src/shared/repository/base-repository.ts:170-173 | null exactly when no category has the id; otherwise the first stored category with that id |
| Categories.CategoryRepository.FindBySlug | src/entities/category/model/repository.ts:211-214 | null exactly when no category has the slug; otherwise the first category with it |
| Categories.CategoryRepository.FindRootCategories | src/entities/category/model/repository.ts:268-273 | exactly the active categories without a parent id, each as often as it is stored, ascending by `order` |
| Categories.CategoryRepository.FindChildren | src/entities/category/model/repository.ts:236-241 | exactly the active categories whose parent id is the given one, each as often as it is stored, ascending by `order` |
| Categories.CategoryRepository.FindTree | src/entities/category/model/repository.ts:219-231 | one entry per root category, in root order, each with the children `findChildren` gives for it |
| Categories.CategoryRepository.GetBreadcrumbs | src/entities/category/model/repository.ts:246-263 | the loop that puts each category in front of the trail yields the breadcrumbs of the whole parent chain, topmost first; an unknown id gives none |
| Categories.TreeShape | src/entities/category/model/repository.ts:219-231 | every root of the tree is an active stored category without a parent, roots ascend by `order`, and every child is an active stored category whose parent is its root |
| Categories.RootsStable | src/entities/category/model/repository.ts:270-272 | root categories with equal `order` keep their stored order |
| Categories.ChildrenStable | src/entities/category/model/repository.ts:238-240 | children with equal `order` keep their stored order |
| Categories.BreadcrumbsSpec | src/entities/category/model/repository.ts:246-263 | an unknown id gives no breadcrumbs; a known one gives a trail ending with that category, each step the parent of the next, starting at a category without a stored parent |
| Categories.InitialCategories | src/entities/category/model/repository.ts:8-198 | the seed has 23 categories |
| Categories.SeedIsRanked | src/entities/category/model/repository.ts:8-198 | the seed parent chain is acyclic, so breadcrumbs of the seed always end |
| Users.MergeUserSpec | src/entities/user/model/store.ts:51 | `{ ...user, ...data }`: an empty patch changes nothing, applying a patch twice is applying it once, a given field takes the patch's value and an absent one keeps the user's |
| Users.MergeAddressSpec | src/entities/user/model/store.ts:64 | `{ ...addr, ...data }`: an empty patch changes nothing, applying a patch twice is applying it once, an absent id is kept and a given default flag wins |
| Users.UserRepository.constructor | src/entities/user/model/repository.ts:55-58 | the repository starts from the seed users (the corrected reading of the constructor; see Findings) |
| Users.UserRepository.FindByEmail | src/entities/user/model/repository.ts:63-66 | null exactly when no stored email equals the query ignoring case; otherwise the first user whose email does |
| Users.FindByEmailIgnoresCase | src/entities/user/model/repository.ts:65 | lower- or upper-casing the query does not change the user found |
| Users.DefaultSet | src/entities/user/model/repository.ts:96-103 | after `setDefault(u, a)` each of u's addresses is the default exactly when its id is a; nothing else of it changes, other users' addresses are untouched, and the list keeps its length and order |
| Users.AtMostOneDefault | src/entities/user/model/repository.ts:96-103 | when u's address ids are distinct, u has at most one default address afterwards, and none when a is not among them |
| Users.AddressRepository.constructor | src/entities/user/model/repository.ts:72-75 | the repository starts from the seed addresses (the corrected reading of the constructor; see Findings) |
| Users.AddressRepository.FindByUserId | src/entities/user/model/repository.ts:80-83 | exactly the user's addresses, each as often as it is stored |
| Users.AddressRepository.FindDefaultByUserId | src/entities/user/model/repository.ts:88-91 | null exactly when the user has no default address; otherwise the first of the user's default addresses |
| Users.AddressRepository.SetDefault | src/entities/user/model/repository.ts:96-103 | the loop over the stored addresses leaves the table as `DefaultSet` describes |
| Users.DefaultAfterSetDefault | src/entities/user/model/repository.ts:88-103 | after `setDefault(u, a)`, `findDefaultByUserId(u)` returns u's first address with id a, now the default, and nothing when u has no such address |
| Users.InitialUsers | src/entities/user/model/repository.ts:8-22 | the seed has one user |
| Users.InitialAddresses | src/entities/user/model/repository.ts:24-50 | the seed has two addresses |
| UserStore.AddressesUpdated | src/entities/user/model/store.ts:61-67 | the addresses with the id get the patch merged in; every other address is unchanged and the list keeps its length |
| UserStore.AddressesWithout | src/entities/user/model/store.ts:69-73 | exactly the addresses whose id differs, each as often as before |
| UserStore.DefaultAddressSet | src/entities/user/model/store.ts:75-82 | each address becomes the default exactly when its id is the given one, whichever user it belongs to; nothing else changes |
| UserStore.StoreDefaultMatchesRepository | src/entities/user/model/store.ts:75-82 | for a list of one user's addresses, the store's toggle agrees with the repository's `setDefault` |
| UserStore.RemoveAddressSpec | src/entities/user/model/store.ts:69-73 | after removal no address has the id, and removing it again changes nothing |
| UserStore.Store.constructor | src/entities/user/model/store.ts:27-30 | nobody signed in, no addresses, not loading |
| UserStore.Store.SetUser | src/entities/user/model/store.ts:32-34 | the user is set, and the signed-in flag is set exactly when there is one |
| UserStore.Store.SetAddresses | src/entities/user/model/store.ts:36-38 | the address list is replaced and nothing else changes |
| UserStore.Store.Login | src/entities/user/model/store.ts:40-42 | the user is set and signed in; the addresses are kept |
| UserStore.Store.Logout | src/entities/user/model/store.ts:44-46 | no user, no addresses, signed out |
| UserStore.Store.UpdateProfile | src/entities/user/model/store.ts:48-53 | the patch is merged into the signed-in user; nothing happens when nobody is signed in |
| UserStore.Store.AddAddress | src/entities/user/model/store.ts:55-59 | the address is appended |
| UserStore.Store.UpdateAddress | src/entities/user/model/store.ts:61-67 | the address list becomes `AddressesUpdated` |
| UserStore.Store.RemoveAddress | src/entities/user/model/store.ts:69-73 | the address list becomes `AddressesWithout` |
| UserStore.Store.SetDefaultAddress | src/entities/user/model/store.ts:75-82 | the address list becomes `DefaultAddressSet` |
| CartStore.ItemQuantity | src/entities/cart/model/store.ts:72-75 | 0 when no entry is for the product; otherwise the quantity of the first entry for it |
| CartStore.QuantityOfEntry | src/entities/cart/model/store.ts:72-75 | in a cart with one entry per product, a product's quantity is that of its entry |
| CartStore.TotalBounds | src/entities/cart/model/store.ts:77-79 | with positive quantities the total is at least the number of entries and at least any one entry's quantity |
| CartStore.Requantified | src/entities/cart/model/store.ts:28-32 | the product's entries get the new quantity; every other entry, every product id, every `addedAt` and the length stay as they were |
| CartStore.Removed | src/entities/cart/model/store.ts:49-53 | exactly the entries for other products remain, and the list does not grow |
| CartStore.SameProductsUnique | src/entities/cart/model/store.ts:28-32 | a list with the same products in the same places as a one-entry-per-product list also has one entry per product |
| CartStore.RequantifiedSpec | src/entities/cart/model/store.ts:28-32 | in a one-entry-per-product cart only the product's entry changes: its quantity becomes the new one and the total moves by the difference; an absent product changes nothing, and other quantities are untouched |
| CartStore.AddedSpec | src/entities/cart/model/store.ts:22-47 | `addItem` keeps one entry per product, raises the product's quantity and the total by the added amount (from 0 when absent), leaves other products alone, and a new entry goes at the end |
| CartStore.FilterKeepsUnique | src/entities/cart/model/store.ts:51 | filtering a one-entry-per-product cart keeps it so |
| CartStore.RemovedAt | src/entities/cart/model/store.ts:51 | removing a product whose only entry is at position i leaves the entries before and after it and takes its quantity off the total |
| CartStore.RemovedKeepsOthers | src/entities/cart/model/store.ts:51 | removing one product leaves every other product's quantity as it was |
| CartStore.RemovedSpec | src/entities/cart/model/store.ts:49-53 | `removeItem` keeps one entry per product, leaves the product at quantity 0, takes its quantity off the total and leaves others alone |
| CartStore.UpdatedSpec | src/entities/cart/model/store.ts:55-66 | for a positive quantity, `updateQuantity` keeps the entries and their places (adding nothing for an absent product), sets the product's quantity when present, and leaves others alone |
| CartStore.Cart.constructor | src/entities/cart/model/store.ts:20 | the cart starts empty |
| CartStore.Cart.AddItem | src/entities/cart/model/store.ts:22-47 | the entries become `Added` with the quantity defaulting to 1; one entry per product is kept |
| CartStore.Cart.RemoveItem | src/entities/cart/model/store.ts:49-53 | the entries become `Removed`; one entry per product is kept |
| CartStore.Cart.UpdateQuantity | src/entities/cart/model/store.ts:55-66 | a quantity of zero or less removes the product; any other sets it; one entry per product is kept |
| CartStore.Cart.ClearCart | src/entities/cart/model/store.ts:68-70 | the cart becomes empty |
| CartStore.Cart.GetItemQuantity | src/entities/cart/model/store.ts:72-75 | the product's quantity: that of its entry in a valid cart, 0 when it has none |
| CartStore.Cart.GetTotalQuantity | src/entities/cart/model/store.ts:77-79 | the sum of the quantities, at least the number of entries when every quantity is positive |
| CartPage.LinesOf | src/app/cart/page.tsx:32 | one line per entry, in order, each pairing the entry's product with its quantity |
| CartPage.Loaded | src/app/cart/page.tsx:27-34 | one line per cart entry whose product the catalogue has, in cart order; each line holds a stored product with the entry's product id and the entry's quantity; never more lines than entries |
| CartPage.LoadedAllFound | src/app/cart/page.tsx:29-34 | when every product is found, exactly one line per entry, in cart order, with the entry's product and quantity |
| CartPage.LoadedNoneFound | src/app/cart/page.tsx:29-34 | when no product is found, no lines, and the page shows the empty cart |
| CartPage.LoadProducts | src/app/cart/page.tsx:25-34 | the loop that looks each entry's product up yields `Loaded` over the catalogue |
| CartPage.LoadedNext | src/app/cart/page.tsx:30-33 | one step of the loop appends the entry's line exactly when the lookup found the product |
| CartPage.LoadedStep | src/app/cart/page.tsx:30-33 | loading one more entry appends its line exactly when its product is found |
| CartPage.SubtotalBounds | src/app/cart/page.tsx:61-64 | with positive prices and quantities the subtotal is at least the number of lines, so positive for a non-empty cart |
| CartPage.Shipping | src/app/cart/page.tsx:65 | shipping is free exactly from a subtotal of 10000 on (the threshold included), and 500 below it |
| CartPage.Total | src/app/cart/page.tsx:66 | the total is never below the subtotal, exceeds it by nothing or by 500, and equals it exactly from 10000 on |
| CartPage.CartPageView | src/app/cart/page.tsx:49-176 | a placeholder while loading; the empty-cart view exactly when no line loaded; otherwise the lines with subtotal, shipping and total, and the free-shipping hint exactly when shipping is charged, i.e. below 10000 |
| Banners.ActiveBanners | src/entities/banner/model/repository.ts:100-102 | the shown banners are exactly the active stored ones, each as often as stored, in ascending `order` |
| Banners.ActiveBannersStable | src/entities/banner/model/repository.ts:100-102 | active banners with the same `order` keep their stored relative order (the sort is stable) |
| Banners.DatesIgnored | src/entities/banner/model/repository.ts:98-103 | changing a banner's start and end dates never changes whether it is shown: only `isActive` decides |
| Banners.BannerRepository.Hero | src/entities/banner/model/repository.ts:90-93 | a hero repository holds the hero seed banners (the corrected reading of the constructor; see Findings) |
| Banners.BannerRepository.Promo | src/entities/banner/model/repository.ts:109-112 | a promo repository holds the promo seed banners (the corrected reading of the constructor; see Findings) |
| Banners.BannerRepository.FindActive | src/entities/banner/model/repository.ts:98-103 | `findActive` returns the active stored banners, as a permutation of the filtered list, ascending by `order`, and leaves the store unchanged |
| Banners.GetActiveHeroBanners | src/entities/banner/model/repository.ts:147-149 | the hero seed is shown complete and in stored order |
| Banners.GetActivePromoBanners | src/entities/banner/model/repository.ts:151-153 | the promo seed is shown complete and in stored order |
| Banners.SeedFindersAgree | src/entities/banner/model/repository.ts:98-103 | a seeded repository's `findActive` and the synchronous `getActive…Banners` functions return the same list |
| Banners.SeedShownAsStored | src/entities/banner/model/repository.ts:100-102 | a list of active banners already in display order is shown unchanged |
| Banners.InitialHeroBanners | src/entities/banner/model/repository.ts:8-49 | three hero banners, all active, the i-th with `order` i |
| Banners.InitialPromoBanners | src/entities/banner/model/repository.ts:54-85 | three promo banners, all active, the i-th with `order` i |
| Repairs.ParseCategory | src/entities/repair/model/schemas.ts:7-14 | a name parses exactly when it is one of the six category names, and to the category with that name |
| Repairs.CategoryLabel | src/entities/repair/model/schemas.ts:18-25 | every category has a non-empty label |
| Repairs.CategoriesComplete | src/entities/repair/model/schemas.ts:7-14 | there are six distinct categories and every category's name parses back to it |
| Repairs.ParseStatus | src/entities/repair/model/schemas.ts:46-53 | a name parses exactly when it is one of the six request status names, and to the status with that name |
| Repairs.StatusLabel | src/entities/repair/model/schemas.ts:57-64 | every request status has a non-empty label |
| Repairs.StatusesComplete | src/entities/repair/model/schemas.ts:46-53 | there are six distinct statuses and every status's name parses back to it |
| Repairs.ServicesIn | src/entities/repair/model/repository.ts:275-277 | the services of a category, each as often as in the catalogue, and no other |
| Repairs.PopularServices | src/entities/repair/model/repository.ts:279-281 | the services whose `isPopular` is true, each as often as in the catalogue, and no other |
| Repairs.RepairServiceRepository.constructor | src/entities/repair/model/repository.ts:200-202 | a service repository holds the seed catalogue (the corrected reading of the constructor; see Findings) |
| Repairs.RepairServiceRepository.FindByCategory | src/entities/repair/model/repository.ts:207-210 | `findByCategory` returns the stored services of the category, with their multiplicities, and nothing else |
| Repairs.RepairServiceRepository.FindPopular | src/entities/repair/model/repository.ts:215-218 | `findPopular` returns the stored services marked popular, with their multiplicities, and nothing else |
| Repairs.RepairRequestRepository.constructor | src/entities/repair/model/repository.ts:225-227 | a request repository holds the seed requests (the corrected reading of the constructor; see Findings) |
| Repairs.RepairRequestRepository.FindByUserId | src/entities/repair/model/repository.ts:232-235 | `findByUserId` returns the user's stored requests, with their multiplicities, and nothing else |
| Repairs.RepairRequestRepository.FindByRequestNumber | src/entities/repair/model/repository.ts:240-243 | `findByRequestNumber` returns null exactly when no stored request has the number, and otherwise the first one that has it |
| Repairs.RepairRequestRepository.GenerateRequestNumber | src/entities/repair/model/repository.ts:248-250 | the number is "REP-2024-" followed by at most six digits whose value is the clock reading modulo 1000000; fifteen characters once the reading has six digits, and the whole reading without leading zeros below a million |
| Repairs.GetRepairServicesByCategory | src/entities/repair/model/repository.ts:275-277 | the seed services of the category and no other |
| Repairs.GetPopularRepairServices | src/entities/repair/model/repository.ts:279-281 | the popular seed services and no other |
| Repairs.SeedFindersAgree | src/entities/repair/model/repository.ts:207-218 | a seeded repository's finders and the synchronous functions return the same lists |
| Repairs.InitialServices | src/entities/repair/model/repository.ts:8-146 | fourteen seed services, each meeting the rules of `repairServiceSchema` (src/entities/repair/model/schemas.ts:30-39) with an upper price above its starting price |
| Repairs.InitialRequests | src/entities/repair/model/repository.ts:151-194 | two seed requests, each with a history ending in its current status |
| Repairs.SeedRequest | src/entities/repair/model/repository.ts:151-194 | each seed request's history ends in its current status, and only the completed one has a completion time |
| SearchParams.GroupParams | src/shared/api/search-params.ts:11-20 | the grouping loop builds exactly the dictionary the step-by-step definition `Grouped` describes |
| SearchParams.ValuesOf | src/shared/api/search-params.ts:13 | the values of one key, in query order, are never more than the pairs |
| SearchParams.GroupedByKey | src/shared/api/search-params.ts:13-20 | each key's entry depends only on that key's own values, in order |
| SearchParams.DropLeadingEmpty | src/shared/api/search-params.ts:15 | what is kept of a key's values never starts with an empty string (an empty stored string is falsy and is replaced) |
| SearchParams.DropLeadingEmptyAppend | src/shared/api/search-params.ts:15-18 | one more occurrence is appended after the kept values, or stands alone when nothing non-empty came before |
| SearchParams.CollectedShape | src/shared/api/search-params.ts:13-20 | a key's entry is absent when it never occurs, one string for a single kept value, an array of the kept values in order otherwise, and "" when all its values are empty |
| SearchParams.GroupingSpec | src/shared/api/search-params.ts:13-20 | a key occurring once keeps its value as a string, a key occurring several times with non-empty values gets all of them in order as an array, and a key never given is absent |
| SearchParams.EmptyValueReplaced | src/shared/api/search-params.ts:15-18 | an empty value followed by another occurrence of its key leaves only the later value |
| SearchParams.ParseSearchParamsStrict | src/shared/api/search-params.ts:35-57 | the result is the schema's verdict on the grouped parameters: success with its data or failure with its error |
| SearchParams.ParseSearchParams | src/shared/api/search-params.ts:7-30 | the parsed data when the schema accepts the grouped parameters, otherwise the schema's defaults |
| SearchParams.Coerce | src/shared/api/search-params.ts:67-68 | `z.coerce.number()` sees an absent value exactly when the key is not in the query |
| SearchParams.PaginationSchema | src/shared/api/search-params.ts:66-69 | accepted exactly when page is absent or a whole number at least 1 and limit is absent or a whole number from 1 to 100; defaults page 1 and limit 12; otherwise the given numbers |
| SearchParams.PaginationDefaults | src/shared/api/search-params.ts:66-69 | an empty query parses to page 1 of 12 |
| SearchParams.BooleanString | src/shared/api/search-params.ts:86-89 | absent stays absent; only 'true', 'false', '1' and '0' are accepted; true exactly for 'true' and '1', false exactly for 'false' and '0' |
| SearchParams.Trimmed | src/shared/api/search-params.ts:96 | every piece trimmed, none dropped, order kept |
| SearchParams.CommaPiecesSpec | src/shared/api/search-params.ts:96 | the list holds exactly the non-empty trimmed pieces between commas, and every one is clean: non-empty, without surrounding whitespace or commas |
| SearchParams.CommaSeparatedArray | src/shared/api/search-params.ts:94-97 | absent stays absent, a string becomes a list of clean pieces, an array is rejected |
| SearchParams.CommaRoundTrip | src/shared/api/search-params.ts:96 | joining clean pieces with commas and parsing the result gives back the same pieces |
| ZodHelpers.PositiveInt | src/shared/lib/zod-helpers.ts:11 | `int().positive()` accepts exactly the positive whole numbers, unchanged |
| ZodHelpers.ParsePagination | src/shared/lib/zod-helpers.ts:10-13 | accepted exactly when page is absent or a positive whole number and limit is absent or a positive whole number at most 100; defaults page 1 and limit 12; otherwise the given numbers |
| ZodHelpers.ParseDirection | src/shared/lib/zod-helpers.ts:23 | only 'asc' and 'desc' are accepted, 'asc' when absent; descending exactly for 'desc' |
| ZodHelpers.ParseSort | src/shared/lib/zod-helpers.ts:20-25 | accepted exactly when the field is one of the allowed fields and the direction is valid; the field is kept and the direction defaults to ascending |
| ZodHelpers.ParsePrice | src/shared/lib/zod-helpers.ts:57 | accepted exactly when strictly positive, unchanged |
| ZodHelpers.OptionalChar | src/shared/lib/zod-helpers.ts:52 | reading one optional character of a class splits the text without losing anything, and what is read belongs to the class |
| ZodHelpers.Digits | src/shared/lib/zod-helpers.ts:52 | reading `\d{n}` takes exactly n digits off the front |
| ZodHelpers.ParsePhone | src/shared/lib/zod-helpers.ts:50-52 | every accepted string is spelled by parts that fit the pattern's classes and group lengths (soundness) |
| ZodHelpers.ParseTail | src/shared/lib/zod-helpers.ts:52 | what follows the area code is read soundly |
| ZodHelpers.ParsePhoneComplete | src/shared/lib/zod-helpers.ts:50-52 | every string the pattern describes is accepted and read back into the same parts (completeness) |
| ZodHelpers.ParseTailComplete | src/shared/lib/zod-helpers.ts:52 | every tail the pattern describes is read back into the same parts |
| ZodHelpers.SeedPhoneAccepted | src/shared/lib/zod-helpers.ts:50-52 | the seed number "+7 (999) 123-45-67" passes the phone check |
| ZodHelpers.SafeParse | src/shared/lib/zod-helpers.ts:62-69 | success with the schema's data exactly when the schema accepts, otherwise the schema's issues |
| ZodHelpers.GetValidationErrors | src/shared/lib/zod-helpers.ts:74-81 | the loop over the issues builds the record `ErrorsOf` describes |
| ZodHelpers.ErrorsOfKeys | src/shared/lib/zod-helpers.ts:76-79 | the record has a key exactly for each issue path |
| ZodHelpers.ErrorsOfLastWins | src/shared/lib/zod-helpers.ts:76-79 | each key holds the message of the last issue with that path |
| Text.ToLower | src/entities/user/model/repository.ts:65 | `toLowerCase` keeps the length (Basic Latin A–Z and basic Cyrillic U+0400–U+045F folded) |
| Text.ToLowerIdempotent | src/entities/product/model/repository.ts:409-414 | lower-casing an already lower-cased query changes nothing |
| Text.LowerOfUpper | src/entities/user/model/repository.ts:65 | lower-casing after upper-casing is lower-casing |
| Text.UpperOfLower | src/entities/order/model/repository.ts:199 | upper-casing after lower-casing is upper-casing |
| Text.ToUpperIdempotent | src/entities/order/model/repository.ts:199 | upper-casing twice is upper-casing once |
| Text.Contains | src/entities/product/model/repository.ts:412-414 | `includes` holds exactly when the needle occurs at some position of the text |
| Text.DecimalRoundTrip | src/entities/order/model/repository.ts:179 | `String(n)` of a whole number reads back as the same number |
| Text.DecimalLength | src/entities/order/model/repository.ts:179 | `String(n)` has more than k digits exactly when n is at least 10^k |
| Text.LastSixDigits | src/entities/order/model/repository.ts:179 | `slice(-6)` of `String(n)` is at most six digits whose value is n modulo 1000000, exactly six once n has six digits |
| Text.ClockStamp | src/entities/order/model/repository.ts:179 | a prefix followed by the clock's last six digits: the prefix kept, digits only, value the clock reading modulo 1000000, and below a million the whole decimal reading |
| Text.Split | src/shared/api/search-params.ts:96 | `split` yields at least one piece and no piece holds the separator |
| Text.SplitJoin | src/shared/api/search-params.ts:96 | splitting the join of separator-free pieces gives the pieces back |
| Text.JoinSplit | src/shared/api/search-params.ts:96 | joining the pieces of a split gives the text back |
| Text.TrimStart | src/shared/api/search-params.ts:96 | the leading whitespace, and only it, is removed |
| Text.TrimEnd | src/shared/api/search-params.ts:96 | the trailing whitespace, and only it, is removed |
| Text.Trim | src/shared/api/search-params.ts:96 | `trim` removes exactly the leading and trailing whitespace |
| Text.StrLePreorder | src/entities/product/model/repository.ts:506 | the character order that `sort()` without a comparator applies to the brand names is a total preorder |
| Sorting.StableSortSorted | src/entities/product/model/repository.ts:420-435 | `Array.prototype.sort` with a consistent comparator yields an ordered permutation |
| Sorting.StableSortKeepsRanks | src/entities/product/model/repository.ts:420-435 | elements the comparator ranks equal keep their original relative order |
| Sorting.StableSortUnique | src/entities/product/model/repository.ts:420-435 | any ordered rearrangement that keeps equal elements in order is the sort's result, so the sort is fully determined |
| Sorting.SortOnKey | src/entities/review/model/repository.ts:126-129 | sorting on a numeric key gives a permutation ordered by the key, ascending or descending |
| Sorting.SortOnKeyOfSorted | src/entities/banner/model/repository.ts:100-102 | a list already ordered by the key is left as it is |
| Sorting.SameKeyKeepsOrder | src/entities/review/model/repository.ts:126-129 | elements with the same key keep their original relative order |
| Seqs.ClampIndex | src/entities/product/model/repository.ts:441 | `slice` index normalisation: negative indices count from the end, every index is clamped to the length |
| Seqs.JsSlice | src/entities/product/model/repository.ts:441 | `slice` returns the elements from the start index onwards, never more than end minus start, and a prefix when starting at 0 |
| Seqs.CeilDiv | src/entities/product/model/repository.ts:439 | `Math.ceil(total / limit)`: the least page count whose pages cover the total |
| Seqs.PageWindow | src/entities/product/model/repository.ts:438-441 | a page holds at most `limit` items, the window starting at `(page - 1) * limit`, and is empty exactly beyond the last page |
| Seqs.FindIndex | src/shared/repository/base-repository.ts:209 | `findIndex`: -1 exactly when no element matches, otherwise the index of the first match |
| Seqs.FindFirst | src/shared/repository/base-repository.ts:172 | `find(...) ?? null`: none exactly when no element matches, otherwise the first matching element |
| Seqs.FilterContains | src/shared/repository/base-repository.ts:182 | `filter` keeps exactly the elements that satisfy the test |
| Seqs.FilterCounts | src/shared/repository/base-repository.ts:182 | `filter` keeps each satisfying element as often as it occurs, and drops the others entirely |
| Seqs.Dedup | src/entities/product/model/repository.ts:505 | `new Set(...)`: the same elements, each once |

## Left out

- **Async and I/O.**
  - `simulateDelay` and the async `Promise` plumbing: every call is modelled as synchronous.
  - `console.log`.
  - zustand's `persist` middleware and localStorage: the stores are plain state.
- **Clock, ids and dates are parameters.**
  - `Date.now()` in `generateOrderNumber` and `generateRequestNumber`.
  - The id generator of `create`: fresh ids are required rather than generated.
  - `new Date().toISOString()` in `updateStatus`.
  - `Date` parsing in the review sort is a parameter `timeOf`. Invalid dates (NaN) are not modelled.
- **Locale-dependent behaviour.**
  - `localeCompare` is a parameter `collate`, required to be a total preorder.
  - `toLowerCase` and `toUpperCase` fold Basic Latin (A–Z) and basic Cyrillic (U+0400–U+045F) letters only. Other Unicode case mappings and UTF-16 lengths are not modelled.
  - `Text.ToLower`, `Text.ToUpper`: so `Orders.ValidatePromoCode` and `Users.UserRepository.FindByEmail` differ from the source on letters outside those ranges. For example JavaScript upper-cases the dotless `ı` of `wınter10` to `I`, so the source accepts that code and the model rejects it.
  - `Text.StrLt`: strings are sequences of Unicode code points, so the brand order of `sort()` is code-point order. JavaScript compares UTF-16 code units, which differs for characters outside the Basic Multilingual Plane.
- **Floating point.**
  - Prices are whole roubles, and averages are integer tenths rounded half up.
  - Floating-point rounding of `Math.round(x * 10) / 10` beyond that is not modelled.
  - Ratings outside 1..5 never reach the rating distribution, whose keys other than 1..5 are not modelled.
- **Zod internals.**
  - The `url()` and `email()` checks and the `datetime()` check of the timestamp schema are not modelled.
  - `z.coerce.number()`'s string-to-number conversion is a parameter `toNumber`.
  - Error messages and issue paths are carried only as the strings `getValidationErrors` reads.
  - `ValidBanner` leaves out the image URL checks.
- **Schemas outside the core.** The search-params `sortSchema` is not used by any core file and is not modelled. The user, category, cart and banner schemas give record shapes only.
- **Order records.** The order items' product snapshot, the delivery address, the notes and tracking fields, and the payment fields beyond their enumerations are not modelled. The amounts, the status and the history are.
- **Aliasing in state changes.**
  - `Orders.OrderRepository.UpdateStatus`, `Users.AddressRepository.SetDefault` and `Reviews.ReviewRepository.IncrementHelpful` replace the record at its index. The source mutates the found object in place.
  - An object shared with another holder, such as a returned search result, is therefore not modelled as changing.
- **Database and ORM.**
  - The database-backed base repository (src/shared/repository/base-repository.ts:30-151) is not modelled: its behaviour belongs to the database client.
  - For the same reason, `addReview`'s insert is a parameter: the id and the creation time the database assigns are inputs, and the stored row is the review `ReviewHandlers.AddReview` returns.
  - `reviewRepo.updateProductStats`, which `addReview` calls after the insert, is not defined on the review repository (src/entities/review/model/repository.ts:71-151) or on its base class, so the call throws; see Findings.
- **Default arguments.**
  - Default arguments such as `limit = 8` in `findFeatured` and `limit = 12` in `getProductCards` are explicit parameters. The caller passes the default.
- **Trivial code.**
  - One-line delegations are covered by the member they delegate to, for example `getProductById`, `getOrderById` and the user, category, repair and banner handlers.
  - The singleton `getXRepository` factories and the in-memory connection object hold no logic.
- **Page rendering.**
  - React rendering beyond `CartPage.CartPageView` is not modelled: the markup, images and links.
  - The cart page's cancellation flag for a load that finishes after unmount is not modelled.
- **Weaker or narrower contracts.**
  - `Categories.CategoryRepository.GetBreadcrumbs`: requires a ranking under which every parent ranks below its child, so the parent chain has no cycle. The source has no cycle guard and loops forever on a cycle. The seed categories are proved ranked (`Categories.SeedIsRanked`).
  - `SearchParams.ParseSearchParams`: requires the schema to accept the empty query. The source's fallback `schema.parse({})` throws for a schema without a default for every field, and that throw is not modelled.
  - `Products.ProductRepository.FindWithFilters`: requires a non-zero limit. With limit 0 the source returns no items and computes `Math.ceil(total / 0)`, which is `Infinity` (`NaN` when the total is 0); JavaScript numbers of that kind are not modelled. `getProducts` passes a validated limit of at least 1.
  - `ProductHandlers.GetProductsByCategory`: requires a non-zero limit for the same reason. The source forwards its `limit` argument unchecked, so a caller passing 0 gets no products and a non-finite `totalPages`; its default is 12, and nothing else in the repository calls it.
  - `Seqs.CeilDiv`: requires a non-zero divisor, for the same reason.
  
## Findings

| source | as written | input that shows it | evidently intended | confidence | as-written member | corrected member |
|---|---|---|---|---|---|---|
| src/shared/repository/base-repository.ts:162-164 | every entity repository calls `super(db, seed)`, but the base constructor takes one parameter, `initialData = []`, so the seed never arrives: the connection object is spread into the table (a TypeError, since it is not iterable) or, with no connection, the table starts empty | `new ProductRepository(db)`, in src/entities/product/model/repository.ts:354-356 and every other repository's constructor | each repository starts from its seed list | not executed | BaseRepository.SubclassSeedIsLost | Products.ProductRepository.constructor |
| src/entities/review/api/handlers.ts:104 | after inserting the review, `addReview` awaits `reviewRepo.updateProductStats(productId)`, but `reviewRepo` is the in-memory review repository (src/entities/review/model/repository.ts:71), and neither it nor its base class (src/shared/repository/base-repository.ts:159) defines that method, so the call throws a TypeError and no valid request gets its review back | any valid request, such as a five-star review of `prod-1` with the title "Отлично" and a text of at least ten characters | the product statistics are refreshed, or the call is left out, and the stored review is returned | not executed | ReviewHandlers.AddReviewAsWritten | ReviewHandlers.AddReview |
| src/app/api/reviews/schemas.ts:11 | the reviews route accepts `sortBy` 'createdAt' and defaults to it, and passes the name unchanged to `getReviews`, whose schema (src/entities/review/model/schemas.ts:66) admits only 'date', 'rating' and 'helpful' | a `GET /api/reviews?productId=prod-1` request without `sortBy`: the handler's validation fails and the answer is the empty fallback even though the product has reviews | 'createdAt' means the handler's 'date' | not executed | ReviewHandlers.RouteDefaultSortRejected | ReviewHandlers.RouteSortNamesAccepted |
