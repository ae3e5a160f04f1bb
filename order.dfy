/**
 * Orders: the status enumeration with its labels and colours, the order
 * record and its validation predicates, the seed orders, the order
 * repository (finders, the status log update, order numbers) and the
 * promo-code table.
 */
module Orders {
  import opened Wrappers
  import opened Seqs
  import opened Text
  import opened ZodHelpers

  // ---------------------------------------------------------------------
  // Enumerations

  /** The eight states of an order. */
  datatype OrderStatus =
    | Pending | Confirmed | Processing | Shipped
    | OutForDelivery | Delivered | Cancelled | Returned

  /** Every status, once each, in declaration order. */
  const AllStatuses: seq<OrderStatus> :=
    [Pending, Confirmed, Processing, Shipped, OutForDelivery, Delivered, Cancelled, Returned]

  /** The wire name of a status. */
  function StatusName(s: OrderStatus): string {
    match s
    case Pending => "pending"
    case Confirmed => "confirmed"
    case Processing => "processing"
    case Shipped => "shipped"
    case OutForDelivery => "out_for_delivery"
    case Delivered => "delivered"
    case Cancelled => "cancelled"
    case Returned => "returned"
  }

  /** `orderStatusSchema`: accepts exactly the eight wire names. */
  function ParseStatus(name: string): (r: Option<OrderStatus>)
    ensures r.Some? ==> StatusName(r.value) == name
    ensures r.None? <==> forall s: OrderStatus :: StatusName(s) != name
  {
    if name == "pending" then Some(Pending)
    else if name == "confirmed" then Some(Confirmed)
    else if name == "processing" then Some(Processing)
    else if name == "shipped" then Some(Shipped)
    else if name == "out_for_delivery" then Some(OutForDelivery)
    else if name == "delivered" then Some(Delivered)
    else if name == "cancelled" then Some(Cancelled)
    else if name == "returned" then Some(Returned)
    else None
  }

  /** There are exactly eight statuses, and each wire name parses back to its status. */
  lemma StatusesComplete()
    ensures |AllStatuses| == 8
    ensures forall i, j :: 0 <= i < j < |AllStatuses| ==> AllStatuses[i] != AllStatuses[j]
    ensures forall s: OrderStatus :: s in AllStatuses && ParseStatus(StatusName(s)) == Some(s)
  {
    forall s: OrderStatus ensures s in AllStatuses && ParseStatus(StatusName(s)) == Some(s) {
      StatusNameParses(s);
      match s
      case Pending => assert AllStatuses[0] == s;
      case Confirmed => assert AllStatuses[1] == s;
      case Processing => assert AllStatuses[2] == s;
      case Shipped => assert AllStatuses[3] == s;
      case OutForDelivery => assert AllStatuses[4] == s;
      case Delivered => assert AllStatuses[5] == s;
      case Cancelled => assert AllStatuses[6] == s;
      case Returned => assert AllStatuses[7] == s;
    }
  }

  /** The wire name of a status parses back to that status. */
  lemma StatusNameParses(s: OrderStatus)
    ensures ParseStatus(StatusName(s)) == Some(s)
  {
    match s
    case Pending =>
    case Confirmed => assert StatusName(s) != "pending";
    case Processing => assert StatusName(s)[0] == 'p' && StatusName(s) != "pending";
    case Shipped =>
    case OutForDelivery =>
    case Delivered =>
    case Cancelled => assert StatusName(s)[0] == 'c' && StatusName(s) != "confirmed";
    case Returned =>
  }

  /** `ORDER_STATUS_LABELS`: the Russian label shown for a status. */
  function StatusLabel(s: OrderStatus): (r: string)
    ensures r != []
  {
    match s
    case Pending => "Ожидает подтверждения"
    case Confirmed => "Подтвержден"
    case Processing => "Комплектуется"
    case Shipped => "Отправлен"
    case OutForDelivery => "В пути к получателю"
    case Delivered => "Доставлен"
    case Cancelled => "Отменен"
    case Returned => "Возврат"
  }

  /** `ORDER_STATUS_COLORS`: the badge classes of a status. */
  function StatusColor(s: OrderStatus): (r: string)
    ensures r != []
  {
    match s
    case Pending => "bg-chart-4/15 text-chart-4"
    case Confirmed => "bg-primary/15 text-primary"
    case Processing => "bg-chart-2/15 text-chart-2"
    case Shipped => "bg-chart-5/15 text-chart-5"
    case OutForDelivery => "bg-chart-1/15 text-chart-1"
    case Delivered => "bg-chart-3/15 text-chart-3"
    case Cancelled => "bg-destructive/15 text-destructive"
    case Returned => "bg-muted text-muted-foreground"
  }

  /** No two statuses share a label. */
  lemma LabelsDistinct(a: OrderStatus, b: OrderStatus)
    ensures StatusLabel(a) == StatusLabel(b) <==> a == b
  {
  }

  /** `paymentMethodSchema`. */
  datatype PaymentMethod = Card | Cash | Online

  function ParsePaymentMethod(name: string): (r: Option<PaymentMethod>)
    ensures r.Some? <==> name in ["card", "cash", "online"]
  {
    if name == "card" then Some(Card)
    else if name == "cash" then Some(Cash)
    else if name == "online" then Some(Online)
    else None
  }

  /** `paymentStatusSchema`: pending, paid, failed or refunded. */
  datatype PaymentStatus = PaymentPending | Paid | PaymentFailed | Refunded

  function ParsePaymentStatus(name: string): (r: Option<PaymentStatus>)
    ensures r.Some? <==> name in ["pending", "paid", "failed", "refunded"]
  {
    if name == "pending" then Some(PaymentPending)
    else if name == "paid" then Some(Paid)
    else if name == "failed" then Some(PaymentFailed)
    else if name == "refunded" then Some(Refunded)
    else None
  }

  // ---------------------------------------------------------------------
  // Records

  /** One entry of an order's status log. */
  datatype StatusEntry = StatusEntry(status: OrderStatus, timestamp: string, comment: Option<string>)

  /** A line of an order: product, quantity and unit price in roubles. */
  datatype OrderItem = OrderItem(productId: string, quantity: int, price: int)

  datatype Order = Order(
    id: string,
    orderNumber: string,
    userId: string,
    items: seq<OrderItem>,
    status: OrderStatus,
    statusHistory: seq<StatusEntry>,
    paymentMethod: PaymentMethod,
    paymentStatus: PaymentStatus,
    subtotal: int,
    shippingCost: int,
    discount: int,
    total: int,
    promoCode: Option<string>,
    createdAt: string,
    updatedAt: string)

  /** `orderItemSchema`: a positive integer quantity and a positive price. */
  predicate ValidItem(item: OrderItem) {
    item.quantity > 0 && item.price > 0
  }

  /**
   * `orderSchema`'s amount fields: every line valid, subtotal and total
   * positive, shipping and discount not negative.
   */
  predicate ValidOrder(o: Order) {
    && (forall i :: 0 <= i < |o.items| ==> ValidItem(o.items[i]))
    && o.subtotal > 0 && o.total > 0
    && o.shippingCost >= 0 && o.discount >= 0
  }

  /** `discount: z.number().nonnegative().default(0)`. */
  function ParseDiscount(discount: Option<real>): (r: Option<real>)
    ensures discount.None? ==> r == Some(0.0)
    ensures discount.Some? ==> (r.Some? <==> discount.value >= 0.0)
    ensures discount.Some? && r.Some? ==> r.value == discount.value
  {
    if discount.None? then Some(0.0)
    else if discount.value >= 0.0 then discount
    else None
  }

  /** A line of a create-order request, before validation. */
  datatype CreateItem = CreateItem(productId: string, quantity: real)

  datatype CreateOrderRequest = CreateOrderRequest(
    items: seq<CreateItem>,
    shippingAddressId: string,
    paymentMethod: string,
    promoCode: Option<string>,
    notes: Option<string>)

  /**
   * `createOrderRequestSchema`: every line needs a positive integer
   * quantity, and the payment method must be one of the three.
   */
  predicate ValidCreateOrder(req: CreateOrderRequest) {
    && (forall i :: 0 <= i < |req.items| ==>
          IsInteger(req.items[i].quantity) && req.items[i].quantity > 0.0)
    && ParsePaymentMethod(req.paymentMethod).Some?
  }

  // ---------------------------------------------------------------------
  // Seed orders

  function LineTotal(item: OrderItem): int { item.price * item.quantity }

  /** An order's amounts add up: the lines give the subtotal, and shipping and discount the total. */
  predicate AmountsAgree(o: Order) {
    && o.subtotal == SumOf(o.items, LineTotal)
    && o.total == o.subtotal + o.shippingCost - o.discount
  }

  /** The seed orders, all of `user-1`. */
  function InitialOrders(): (r: seq<Order>)
    ensures |r| == 3
  {
    [SeedOrder(1), SeedOrder(2), SeedOrder(3)]
  }

  function SeedItems(n: nat): seq<OrderItem>
    requires 1 <= n <= 3
  {
    match n
    case 1 => [OrderItem("prod-1", 1, 149990), OrderItem("prod-10", 1, 17990)]
    case 2 => [OrderItem("prod-9", 2, 18990)]
    case 3 => [OrderItem("prod-5", 1, 54990), OrderItem("prod-12", 1, 21990)]
  }

  function SeedHistory(n: nat): seq<StatusEntry>
    requires 1 <= n <= 3
  {
    match n
    case 1 => [
      StatusEntry(Pending, "2024-01-20T10:00:00Z", None),
      StatusEntry(Confirmed, "2024-01-20T10:15:00Z", Some("Заказ подтвержден")),
      StatusEntry(Processing, "2024-01-20T14:00:00Z", Some("Заказ комплектуется на складе")),
      StatusEntry(Shipped, "2024-01-21T09:00:00Z", Some("Заказ передан в службу доставки"))]
    case 2 => [
      StatusEntry(Pending, "2024-01-10T12:00:00Z", None),
      StatusEntry(Confirmed, "2024-01-10T12:30:00Z", None),
      StatusEntry(Processing, "2024-01-10T16:00:00Z", None),
      StatusEntry(Shipped, "2024-01-11T08:00:00Z", None),
      StatusEntry(OutForDelivery, "2024-01-13T09:00:00Z", None),
      StatusEntry(Delivered, "2024-01-13T14:30:00Z", Some("Получено"))]
    case 3 => [
      StatusEntry(Pending, "2024-01-28T15:00:00Z", None),
      StatusEntry(Confirmed, "2024-01-28T15:20:00Z", None),
      StatusEntry(Processing, "2024-01-28T17:00:00Z", None)]
  }

  function SeedOrder(n: nat): Order
    requires 1 <= n <= 3
  {
    match n
    case 1 => Order("order-1", "CL-2024-001234", "user-1", SeedItems(1), Shipped, SeedHistory(1),
                    Card, Paid, 167980, 0, 0, 167980, None,
                    "2024-01-20T10:00:00Z", "2024-01-21T09:00:00Z")
    case 2 => Order("order-2", "CL-2024-001235", "user-1", SeedItems(2), Delivered, SeedHistory(2),
                    Online, Paid, 37980, 500, 3798, 34682, Some("WINTER10"),
                    "2024-01-10T12:00:00Z", "2024-01-13T14:30:00Z")
    case 3 => Order("order-3", "CL-2024-001236", "user-1", SeedItems(3), Processing, SeedHistory(3),
                    Card, Paid, 76980, 0, 0, 76980, None,
                    "2024-01-28T15:00:00Z", "2024-01-28T17:00:00Z")
  }

  /** Every seed order is valid and its amounts add up. */
  lemma SeedAmounts(n: nat)
    requires 1 <= n <= 3
    ensures ValidOrder(SeedOrder(n)) && AmountsAgree(SeedOrder(n))
  {
    var items := SeedItems(n);
    if |items| == 2 {
      assert items[1..][1..] == [];
    } else {
      assert items[1..] == [];
    }
  }

  /** The second seed order's discount is its promo code's percentage of its subtotal. */
  lemma SeedPromoDiscount()
    ensures var o := SeedOrder(2);
            && o.promoCode == Some("WINTER10")
            && ValidatePromoCode("WINTER10").valid
            && ValidatePromoCode("WINTER10").discountType == Percentage
            && o.discount * 100 == o.subtotal * ValidatePromoCode("WINTER10").discount
  {
    UpperCaseKept("WINTER10");
  }

  // ---------------------------------------------------------------------
  // Status log update

  /**
   * The order after a status change: the new status, one more log entry
   * at the end carrying the status, the first clock reading and the
   * comment, `updatedAt` set to the second clock reading, and nothing else
   * changed.
   */
  function Advanced(o: Order, status: OrderStatus, comment: Option<string>, loggedAt: string, updatedAt: string)
    : (r: Order)
    ensures r.status == status && r.updatedAt == updatedAt
    ensures |r.statusHistory| == |o.statusHistory| + 1
    ensures r.statusHistory[..|o.statusHistory|] == o.statusHistory
    ensures r.statusHistory[|o.statusHistory|] == StatusEntry(status, loggedAt, comment)
    ensures r.(status := o.status, statusHistory := o.statusHistory, updatedAt := o.updatedAt) == o
  {
    o.(status := status,
       statusHistory := o.statusHistory + [StatusEntry(status, loggedAt, comment)],
       updatedAt := updatedAt)
  }

  function IdIs(id: string): Order -> bool { (o: Order) => o.id == id }
  function UserIs(userId: string): Order -> bool { (o: Order) => o.userId == userId }
  function StatusIs(status: OrderStatus): Order -> bool { (o: Order) => o.status == status }
  function NumberIs(orderNumber: string): Order -> bool { (o: Order) => o.orderNumber == orderNumber }
  function UserAndStatus(userId: string, status: OrderStatus): Order -> bool {
    (o: Order) => o.userId == userId && o.status == status
  }

  /** The table after `updateStatus`: the first order with the id advanced, or no change. */
  function StatusUpdated(data: seq<Order>, orderId: string, status: OrderStatus, comment: Option<string>,
                         loggedAt: string, updatedAt: string): (r: seq<Order>)
    ensures |r| == |data|
  {
    var i := FindIndex(data, IdIs(orderId));
    if i == -1 then data else data[i := Advanced(data[i], status, comment, loggedAt, updatedAt)]
  }

  /**
   * An unknown order id changes nothing. Otherwise only the first order
   * with the id changes, it becomes the advanced order, and looking the id
   * up again finds it; any status may follow any other.
   */
  lemma StatusUpdatedSpec(data: seq<Order>, orderId: string, status: OrderStatus, comment: Option<string>,
                          loggedAt: string, updatedAt: string)
    ensures var i := FindIndex(data, IdIs(orderId));
            var r := StatusUpdated(data, orderId, status, comment, loggedAt, updatedAt);
            && (i == -1 ==> r == data)
            && (i != -1 ==> forall j :: 0 <= j < |data| && j != i ==> r[j] == data[j])
            && (i != -1 ==> r[i] == Advanced(data[i], status, comment, loggedAt, updatedAt))
            && (i != -1 ==> FindFirst(r, IdIs(orderId)) == Some(r[i]))
  {
    var i := FindIndex(data, IdIs(orderId));
    if i != -1 {
      var r := StatusUpdated(data, orderId, status, comment, loggedAt, updatedAt);
      assert forall j :: 0 <= j < i ==> r[j] == data[j];
      assert IdIs(orderId)(r[i]);
      assert FindIndex(r, IdIs(orderId)) == i;
    }
  }

  // ---------------------------------------------------------------------
  // Repository

  class OrderRepository {
    var data: seq<Order>

    /** Starts from the seed orders. */
    constructor ()
      ensures data == InitialOrders()
    {
      data := InitialOrders();
    }

    /** The inherited `findById`: the first order with the id, or null. */
    function FindById(id: string): (r: Option<Order>)
      reads this
      ensures r.None? <==> forall j :: 0 <= j < |data| ==> data[j].id != id
      ensures r.Some? ==> r.value.id == id &&
                          exists i :: 0 <= i < |data| && data[i] == r.value &&
                                      forall j :: 0 <= j < i ==> data[j].id != id
    {
      FindFirst(data, IdIs(id))
    }

    /** `findByUserId`: the user's orders, in stored order. */
    function FindByUserId(userId: string): (r: seq<Order>)
      reads this
      ensures forall o :: o in r <==> o in data && o.userId == userId
      ensures forall o :: multiset(r)[o] == if o.userId == userId then multiset(data)[o] else 0
    {
      FilterContains(data, UserIs(userId));
      FilterCounts(data, UserIs(userId));
      Filter(data, UserIs(userId))
    }

    /** `findByOrderNumber`: the first order with that number, or null. */
    function FindByOrderNumber(orderNumber: string): (r: Option<Order>)
      reads this
      ensures r.None? <==> forall j :: 0 <= j < |data| ==> data[j].orderNumber != orderNumber
      ensures r.Some? ==> r.value.orderNumber == orderNumber &&
                          exists i :: 0 <= i < |data| && data[i] == r.value &&
                                      forall j :: 0 <= j < i ==> data[j].orderNumber != orderNumber
    {
      FindFirst(data, NumberIs(orderNumber))
    }

    /**
     * `findByUserIdAndStatus`: one pass over the table with both tests,
     * which keeps exactly the user's orders that have the status, in the
     * order `findByUserId` lists them.
     */
    function FindByUserIdAndStatus(userId: string, status: OrderStatus): (r: seq<Order>)
      reads this
      ensures r == Filter(FindByUserId(userId), StatusIs(status))
      ensures forall o :: o in r <==> o in data && o.userId == userId && o.status == status
    {
      FilterFilter(data, UserIs(userId), StatusIs(status), UserAndStatus(userId, status));
      FilterContains(data, UserAndStatus(userId, status));
      Filter(data, UserAndStatus(userId, status))
    }

    /**
     * `updateStatus`: on the first order with the id, sets the status,
     * appends a log entry and sets `updatedAt`, then returns that order;
     * null and no change for an unknown id. The two clock readings are
     * parameters.
     */
    method UpdateStatus(orderId: string, status: OrderStatus, comment: Option<string>,
                        loggedAt: string, updatedAt: string)
      returns (r: Option<Order>)
      modifies this
      ensures data == StatusUpdated(old(data), orderId, status, comment, loggedAt, updatedAt)
      ensures r.None? <==> old(FindById(orderId)).None?
      ensures r.Some? ==> r == Some(Advanced(old(FindById(orderId)).value, status, comment, loggedAt, updatedAt))
      ensures r.Some? ==> r == FindById(orderId)
    {
      var index := FindIndex(data, IdIs(orderId));
      if index == -1 {
        return None;
      }
      StatusUpdatedSpec(data, orderId, status, comment, loggedAt, updatedAt);
      data := data[index := Advanced(data[index], status, comment, loggedAt, updatedAt)];
      r := Some(data[index]);
    }

    /**
     * `generateOrderNumber`: "CL-2024-" and the last six digits of the
     * clock in milliseconds (the clock reading is the parameter). The digits
     * spell the clock modulo a million, and any clock past 100000 ms gives
     * fourteen characters.
     */
    function GenerateOrderNumber(now: nat): (r: string)
      ensures 8 <= |r| <= 14 && r[..8] == "CL-2024-"
      ensures now >= 100000 ==> |r| == 14
      ensures forall i :: 8 <= i < |r| ==> '0' <= r[i] <= '9'
      ensures DecimalValue(r[8..]) == now % 1000000
      ensures now < 1000000 ==> r[8..] == DecimalString(now)
    {
      var prefix := "CL-2024-";
      assert |prefix| == 8;
      ClockStamp(prefix, now)
    }
  }

  // ---------------------------------------------------------------------
  // Promo codes

  datatype DiscountType = Percentage | Fixed

  datatype Promo = Promo(discount: int, kind: DiscountType)

  /** The fixed promo-code table, keyed by upper-case code. */
  const PromoCodes: map<string, Promo> := map[
    "WINTER10" := Promo(10, Percentage),
    "WELCOME500" := Promo(500, Fixed),
    "SALE15" := Promo(15, Percentage)]

  /** The answer of a promo-code check. */
  datatype PromoCheck = PromoCheck(valid: bool, discount: int, discountType: DiscountType, message: string)

  /**
   * `validatePromoCode`: looks the upper-cased code up in the table; a hit
   * gives its discount and type with a confirmation, a miss gives an
   * invalid answer with no discount.
   */
  function ValidatePromoCode(code: string): (r: PromoCheck)
    ensures r.valid <==> ToUpper(code) in PromoCodes
    ensures r.valid ==> r.discount == PromoCodes[ToUpper(code)].discount &&
                        r.discountType == PromoCodes[ToUpper(code)].kind
    ensures !r.valid ==> r.discount == 0 && r.discountType == Fixed && r.message == "Промокод недействителен"
  {
    var key := ToUpper(code);
    if key in PromoCodes then
      var promo := PromoCodes[key];
      var sign := if promo.kind == Percentage then "%" else "₽";
      PromoCheck(true, promo.discount, promo.kind, "Скидка " + DecimalString(promo.discount) + sign + " применена!")
    else
      PromoCheck(false, 0, Fixed, "Промокод недействителен")
  }

  /** A code already in upper case is its own key. */
  lemma UpperCaseKept(s: string)
    requires forall i :: 0 <= i < |s| ==> 'A' <= s[i] <= 'Z' || '0' <= s[i] <= '9'
    ensures ToUpper(s) == s
  {
  }

  /** The answer depends only on the letters of the code, not on their case. */
  lemma PromoCaseInsensitive(code: string)
    ensures ValidatePromoCode(ToLower(code)) == ValidatePromoCode(code)
    ensures ValidatePromoCode(ToUpper(code)) == ValidatePromoCode(code)
  {
    UpperOfLower(code);
    ToUpperIdempotent(code);
  }

  /** The three known codes, in any case, are valid with their discounts; any other code is not. */
  lemma KnownPromoCodes(code: string)
    ensures ToUpper(code) == "WINTER10" ==> var r := ValidatePromoCode(code);
              r.valid && r.discount == 10 && r.discountType == Percentage
    ensures ToUpper(code) == "WELCOME500" ==> var r := ValidatePromoCode(code);
              r.valid && r.discount == 500 && r.discountType == Fixed
    ensures ToUpper(code) == "SALE15" ==> var r := ValidatePromoCode(code);
              r.valid && r.discount == 15 && r.discountType == Percentage
    ensures ToUpper(code) !in ["WINTER10", "WELCOME500", "SALE15"] ==> var r := ValidatePromoCode(code);
              !r.valid && r.discount == 0 && r.discountType == Fixed
  {
  }
}
