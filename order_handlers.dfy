/**
 * The order API handlers: the paginated order list with its fallback, the
 * create-order stub, and the promo-code check.
 */
module OrderHandlers {
  import opened Wrappers
  import opened Seqs
  import opened Text
  import opened ZodHelpers
  import opened Orders

  /** The parameters `getOrders` receives, each possibly absent. */
  datatype OrdersRequest = OrdersRequest(userId: Option<string>, status: Option<string>,
                                         page: Option<real>, limit: Option<real>)

  /** A validated `getOrders` request. */
  datatype OrdersQuery = OrdersQuery(userId: string, status: Option<OrderStatus>, pagination: Pagination)

  /** The `getOrders` answer. */
  datatype OrderList = OrderList(orders: seq<Order>, total: int, page: int, totalPages: int)

  /** The answer to an invalid request. */
  const EmptyList := OrderList([], 0, 1, 0)

  /**
   * `getOrdersRequestSchema.safeParse`: a user id is required, a status
   * must be one of the eight names when given, and the page and limit must
   * be within the pagination bounds.
   */
  function ParseOrdersRequest(req: OrdersRequest): (r: Option<OrdersQuery>)
    ensures r.Some? <==> && req.userId.Some?
                         && (req.status.None? || ParseStatus(req.status.value).Some?)
                         && ParsePagination(req.page, req.limit).Some?
    ensures r.Some? ==> r.value.userId == req.userId.value
    ensures r.Some? ==> r.value.pagination == ParsePagination(req.page, req.limit).value
    ensures r.Some? ==> (r.value.status.None? <==> req.status.None?)
    ensures r.Some? && r.value.status.Some? ==> StatusName(r.value.status.value) == req.status.value
  {
    var pagination := ParsePagination(req.page, req.limit);
    var status := if req.status.None? then Some(None)
                  else match ParseStatus(req.status.value)
                       case None => None
                       case Some(s) => Some(Some(s));
    if req.userId.Some? && status.Some? && pagination.Some? then
      Some(OrdersQuery(req.userId.value, status.value, pagination.value))
    else None
  }

  /** The orders a validated request selects, before paging. */
  function Selected(data: seq<Order>, q: OrdersQuery): (r: seq<Order>)
    ensures forall o :: o in r <==>
                          (o in data && o.userId == q.userId && (q.status.Some? ==> o.status == q.status.value))
  {
    if q.status.Some? then
      FilterContains(data, UserAndStatus(q.userId, q.status.value));
      Filter(data, UserAndStatus(q.userId, q.status.value))
    else
      FilterContains(data, UserIs(q.userId));
      Filter(data, UserIs(q.userId))
  }

  /** The answer `getOrders` gives over a table of orders. */
  function OrdersFor(data: seq<Order>, req: OrdersRequest): (r: OrderList)
    ensures ParseOrdersRequest(req).None? ==> r == EmptyList
  {
    match ParseOrdersRequest(req)
    case None => EmptyList
    case Some(q) =>
      var selected := Selected(data, q);
      var p := q.pagination;
      OrderList(Page(selected, p.page, p.limit), |selected|, p.page, CeilDiv(|selected|, p.limit))
  }

  /**
   * For a valid request: the total is the number of the user's orders
   * (with the status, when one is given), the page count is the ceiling of
   * the total over the limit, and the page holds at most `limit` of those
   * orders, starting at position `(page - 1) * limit`.
   */
  lemma OrdersForSpec(data: seq<Order>, req: OrdersRequest)
    requires ParseOrdersRequest(req).Some?
    ensures var q := ParseOrdersRequest(req).value;
            var selected := Selected(data, q);
            var r := OrdersFor(data, req);
            && r.total == |selected|
            && r.page == q.pagination.page
            && r.totalPages * q.pagination.limit >= r.total
            && (r.totalPages - 1) * q.pagination.limit < r.total
            && |r.orders| <= q.pagination.limit
            && (forall i :: 0 <= i < |r.orders| ==>
                  0 <= (q.pagination.page - 1) * q.pagination.limit + i < |selected| &&
                  r.orders[i] == selected[(q.pagination.page - 1) * q.pagination.limit + i])
            && (forall i :: 0 <= i < |r.orders| ==>
                  r.orders[i] in data && r.orders[i].userId == q.userId &&
                  (q.status.Some? ==> r.orders[i].status == q.status.value))
  {
    var q := ParseOrdersRequest(req).value;
    var selected := Selected(data, q);
    var r := OrdersFor(data, req);
    PageItems(selected, q.pagination.page, q.pagination.limit);
    forall i | 0 <= i < |r.orders|
      ensures r.orders[i] in selected
    {
      assert r.orders[i] == selected[(q.pagination.page - 1) * q.pagination.limit + i];
    }
  }

  /**
   * `getOrders`: the empty list for an invalid request; otherwise the
   * user's orders (with the status, when one is given) cut into the
   * requested page, with the match count and the page count.
   */
  method GetOrders(repo: OrderRepository, req: OrdersRequest) returns (r: OrderList)
    ensures r == OrdersFor(repo.data, req)
  {
    var parsed := ParseOrdersRequest(req);
    if parsed.None? {
      return EmptyList;
    }
    var q := parsed.value;
    var orders: seq<Order>;
    if q.status.Some? {
      orders := repo.FindByUserIdAndStatus(q.userId, q.status.value);
    } else {
      orders := repo.FindByUserId(q.userId);
    }
    assert orders == Selected(repo.data, q);
    var total := |orders|;
    var totalPages := CeilDiv(total, q.pagination.limit);
    var startIndex := (q.pagination.page - 1) * q.pagination.limit;
    var page := JsSlice(orders, startIndex, startIndex + q.pagination.limit);
    r := OrderList(page, total, q.pagination.page, totalPages);
  }

  /**
   * `createOrder`: null for an invalid request, and null for a valid one
   * too, since no order is built yet.
   */
  method CreateOrder(userId: string, req: Option<CreateOrderRequest>) returns (r: Option<Order>)
    ensures r.None?
  {
    if req.None? || !ValidCreateOrder(req.value) {
      return None;
    }
    return None;
  }

  /** `checkPromoCode`: the promo-code check, case-insensitive. */
  function CheckPromoCode(code: string): (r: PromoCheck)
    ensures r == ValidatePromoCode(code)
    ensures r == ValidatePromoCode(ToUpper(code)) && r == ValidatePromoCode(ToLower(code))
  {
    PromoCaseInsensitive(code);
    ValidatePromoCode(code)
  }
}
