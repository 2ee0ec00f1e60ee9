/** The read side of the order routes: the customer's and the admin's
    paginated listings, and the admin aggregates (`todayStats`, the period
    statistics and `topProducts`), written as folds over the stored orders. */
module OrderStats {
  import opened Common
  import opened Text
  import opened Sorting
  import opened Pagination
  import opened OrderModel
  import opened Orders

  // ---------------------------------------------------------------------
  // Listings

  /** The `sortBy` field: one of the stored fields an order is listed by,
      or a name no order has, on which all orders tie. */
  datatype SortKey =
    | ByCreatedAt | BySubtotal | ByTax | ByDeliveryFee | ByTotalAmount
    | ByStatus | ByOrderType | ByOrderNumber
    | ByOtherField

  function SortKeyOf(sortBy: string): SortKey {
    if sortBy == "createdAt" then ByCreatedAt
    else if sortBy == "subtotal" then BySubtotal
    else if sortBy == "tax" then ByTax
    else if sortBy == "deliveryFee" then ByDeliveryFee
    else if sortBy == "totalAmount" then ByTotalAmount
    else if sortBy == "status" then ByStatus
    else if sortBy == "orderType" then ByOrderType
    else if sortBy == "orderNumber" then ByOrderNumber
    else ByOtherField
  }

  /** The database's ascending order on one field: numbers by value, strings
      by code point, a missing order number first. */
  predicate KeyLe(key: SortKey, a: OrderRecord, b: OrderRecord) {
    match key
    case ByCreatedAt => a.createdAt <= b.createdAt
    case BySubtotal => a.subtotal <= b.subtotal
    case ByTax => a.tax <= b.tax
    case ByDeliveryFee => a.deliveryFee <= b.deliveryFee
    case ByTotalAmount => a.totalAmount <= b.totalAmount
    case ByStatus => LexLe(StatusName(a.status), StatusName(b.status))
    case ByOrderType => LexLe(a.orderType, b.orderType)
    case ByOrderNumber => a.orderNumber.None? || (b.orderNumber.Some? && LexLe(a.orderNumber.value, b.orderNumber.value))
    case ByOtherField => true
  }

  lemma KeyLeTotal(key: SortKey, a: OrderRecord, b: OrderRecord)
    ensures KeyLe(key, a, b) || KeyLe(key, b, a)
  {
    match key
    case ByStatus => LexLeTotal(StatusName(a.status), StatusName(b.status));
    case ByOrderType => LexLeTotal(a.orderType, b.orderType);
    case ByOrderNumber =>
      if a.orderNumber.Some? && b.orderNumber.Some? {
        LexLeTotal(a.orderNumber.value, b.orderNumber.value);
      }
    case _ =>
  }

  lemma KeyLeTransitive(key: SortKey, a: OrderRecord, b: OrderRecord, c: OrderRecord)
    requires KeyLe(key, a, b) && KeyLe(key, b, c)
    ensures KeyLe(key, a, c)
  {
    match key
    case ByStatus => LexLeTransitive(StatusName(a.status), StatusName(b.status), StatusName(c.status));
    case ByOrderType => LexLeTransitive(a.orderType, b.orderType, c.orderType);
    case ByOrderNumber =>
      if a.orderNumber.Some? {
        LexLeTransitive(a.orderNumber.value, b.orderNumber.value, c.orderNumber.value);
      }
    case _ =>
  }

  /** `{[sortBy]: order === 'asc' ? 1 : -1}`: descending unless `asc`. */
  function OrderLe(key: SortKey, order: string): (OrderRecord, OrderRecord) -> bool {
    if order == "asc" then (a: OrderRecord, b: OrderRecord) => KeyLe(key, a, b)
    else (a: OrderRecord, b: OrderRecord) => KeyLe(key, b, a)
  }

  /** Every key, in either direction, is a total preorder, so a sort by it is
      well defined up to ties. */
  lemma OrderLeIsPreorder(key: SortKey, order: string)
    ensures TotalPreorder(OrderLe(key, order))
  {
    var le := OrderLe(key, order);
    forall a: OrderRecord, b: OrderRecord ensures le(a, b) || le(b, a) {
      KeyLeTotal(key, a, b);
    }
    forall a: OrderRecord, b: OrderRecord, c: OrderRecord | le(a, b) && le(b, c) ensures le(a, c) {
      if order == "asc" {
        KeyLeTransitive(key, a, b, c);
      } else {
        KeyLeTransitive(key, c, b, a);
      }
    }
  }

  /** The matched orders in the requested order: a permutation of them that
      is sorted by the key. */
  function Ranked(matched: seq<OrderRecord>, sortBy: string, order: string): (r: seq<OrderRecord>)
    ensures multiset(r) == multiset(matched)
    ensures SortedBy(r, OrderLe(SortKeyOf(sortBy), order))
  {
    var le := OrderLe(SortKeyOf(sortBy), order);
    OrderLeIsPreorder(SortKeyOf(sortBy), order);
    InsertionSortSorted(matched, le);
    InsertionSort(matched, le)
  }

  /** The customer's filter: their own orders, of the given status when one
      is supplied. */
  predicate UserMatches(userId: nat, status: Option<string>, o: OrderRecord) {
    o.userId == userId && (Truthy(status) ==> StatusName(o.status) == status.value)
  }

  function UserFilter(userId: nat, status: Option<string>): OrderRecord -> bool {
    (o: OrderRecord) => UserMatches(userId, status, o)
  }

  const DayMillis := 86400000

  /** The admin filter: status, order type and the day starting at `day`
      (`new Date(date)` and one day later). */
  predicate AdminMatches(status: Option<string>, orderType: Option<string>, day: Option<int>, o: OrderRecord) {
    && (Truthy(status) ==> StatusName(o.status) == status.value)
    && (Truthy(orderType) ==> o.orderType == orderType.value)
    && (day.Some? ==> day.value <= o.createdAt < day.value + DayMillis)
  }

  function AdminFilter(status: Option<string>, orderType: Option<string>, day: Option<int>): OrderRecord -> bool {
    (o: OrderRecord) => AdminMatches(status, orderType, day, o)
  }

  datatype Listing = Listing(orders: seq<OrderRecord>, pagination: PageInfo)

  /** Filter, sort, page and count, as `find().sort().skip().limit()` and
      `countDocuments` do; a negative skip is refused by the database. The
      rows are the requested window of the ranked matches. */
  function List(matched: seq<OrderRecord>, page: int, limit: int, sortBy: string, order: string): (r: Reply<Listing>)
    ensures r.Fail? <==> Skip(page, limit) < 0
    ensures r.Fail? ==> r == Fail(500, ServerErrorMessage, [])
    ensures r.Ok? ==> r.value.orders == Window(Ranked(matched, sortBy, order), Skip(page, limit), limit)
    ensures r.Ok? ==> r.value.pagination == Info(page, limit, |matched|)
    ensures r.Ok? ==> forall x :: x in r.value.orders ==> x in matched
  {
    var sorted := Ranked(matched, sortBy, order);
    match PageOf(sorted, page, limit)
    case None => Fail(500, ServerErrorMessage, [])
    case Some(rows) =>
      assert forall x :: x in rows ==> x in multiset(sorted);
      Ok(200, Listing(rows, Info(page, limit, |matched|)))
  }

  /** `GET /api/orders`: a page of the caller's orders of the requested
      status, counted over all of them. */
  function UserOrders(
    orders: seq<OrderRecord>, userId: nat, status: Option<string>,
    page: int, limit: int, sortBy: string, order: string): (r: Reply<Listing>)
    ensures r.Fail? <==> Skip(page, limit) < 0
    ensures r.Ok? ==> r.value.pagination.totalItems == CountIf(orders, UserFilter(userId, status))
    ensures r.Ok? ==>
      r.value.orders == Window(Ranked(Filter(orders, UserFilter(userId, status)), sortBy, order), Skip(page, limit), limit)
    ensures r.Ok? ==> forall x :: x in r.value.orders ==> x in orders && UserMatches(userId, status, x)
  {
    List(Filter(orders, UserFilter(userId, status)), page, limit, sortBy, order)
  }

  /** `GET /api/orders/admin/all`, without the day counts: a page of the
      orders that pass the admin filter, counted over all of them. */
  function AdminOrders(
    orders: seq<OrderRecord>, status: Option<string>, orderType: Option<string>, day: Option<int>,
    page: int, limit: int, sortBy: string, order: string): (r: Reply<Listing>)
    ensures r.Fail? <==> Skip(page, limit) < 0
    ensures r.Ok? ==> r.value.pagination.totalItems == CountIf(orders, AdminFilter(status, orderType, day))
    ensures r.Ok? ==>
      r.value.orders == Window(Ranked(Filter(orders, AdminFilter(status, orderType, day)), sortBy, order), Skip(page, limit), limit)
    ensures r.Ok? ==> forall x :: x in r.value.orders ==> x in orders && AdminMatches(status, orderType, day, x)
  {
    List(Filter(orders, AdminFilter(status, orderType, day)), page, limit, sortBy, order)
  }

  /** A listed page is in key order, and full whenever enough matches lie
      past its skip. */
  lemma ListSorted(matched: seq<OrderRecord>, page: int, limit: int, sortBy: string, order: string)
    requires List(matched, page, limit, sortBy, order).Ok?
    ensures var rows := List(matched, page, limit, sortBy, order).value.orders;
      && SortedBy(rows, OrderLe(SortKeyOf(sortBy), order))
      && (limit != 0 && Skip(page, limit) + Abs(limit) <= |matched| ==> |rows| == Abs(limit))
  {
    var sorted := Ranked(matched, sortBy, order);
    WindowSorted(sorted, Skip(page, limit), limit, OrderLe(SortKeyOf(sortBy), order));
  }

  // ---------------------------------------------------------------------
  // todayStats

  datatype DayStats = DayStats(totalOrders: nat, totalRevenue: int, pendingOrders: nat, completedOrders: nat)

  /** `todayStart` to `todayEnd` = `todayStart + 86399999`, both included. */
  predicate InDay(todayStart: int, o: OrderRecord) {
    todayStart <= o.createdAt <= todayStart + DayMillis - 1
  }

  function Revenue(orders: seq<OrderRecord>): int {
    if orders == [] then 0 else Revenue(orders[..|orders| - 1]) + orders[|orders| - 1].totalAmount
  }

  function CountIf(orders: seq<OrderRecord>, p: OrderRecord -> bool): nat {
    |Filter(orders, p)|
  }

  predicate IsPending(o: OrderRecord) { o.status == Pending }
  predicate IsDelivered(o: OrderRecord) { o.status == Delivered }
  predicate IsCancelled(o: OrderRecord) { o.status == Cancelled }
  predicate IsDelivery(o: OrderRecord) { o.orderType == "delivery" }
  predicate IsPickup(o: OrderRecord) { o.orderType == "pickup" }

  /** `$match: {createdAt: {$gte: startDate}}`. */
  function InPeriod(orders: seq<OrderRecord>, start: int): (r: seq<OrderRecord>)
    ensures forall o :: o in r <==> o in orders && o.createdAt >= start
  {
    Filter(orders, (o: OrderRecord) => o.createdAt >= start)
  }

  /** One pass of the `$group` stage over the matched orders. */
  function TallyDay(orders: seq<OrderRecord>): DayStats {
    if orders == [] then DayStats(0, 0, 0, 0)
    else
      var s := TallyDay(orders[..|orders| - 1]);
      var o := orders[|orders| - 1];
      DayStats(s.totalOrders + 1, s.totalRevenue + o.totalAmount,
        s.pendingOrders + (if o.status == Pending then 1 else 0),
        s.completedOrders + (if o.status == Delivered then 1 else 0))
  }

  /** The counts of the admin listing; with no order today the fallback is
      all zeros, which is what the fold gives on the empty match. */
  function TodayStats(orders: seq<OrderRecord>, todayStart: int): DayStats {
    TallyDay(Filter(orders, (o: OrderRecord) => InDay(todayStart, o)))
  }

  lemma {:induction false} FilterLast<T(!new)>(s: seq<T>, keep: T -> bool)
    requires s != []
    ensures Filter(s, keep) == Filter(s[..|s| - 1], keep) + (if keep(s[|s| - 1]) then [s[|s| - 1]] else [])
  {
    var last := s[|s| - 1];
    assert s == s[..|s| - 1] + [last];
    FilterAppend(s[..|s| - 1], [last], keep);
    assert Filter([last], keep) == (if keep(last) then [last] else []) + Filter([last][1..], keep);
  }

  /** Filtering distributes over concatenation. */
  lemma {:induction false} FilterAppend<T(!new)>(a: seq<T>, b: seq<T>, keep: T -> bool)
    ensures Filter(a + b, keep) == Filter(a, keep) + Filter(b, keep)
    decreases |a|
  {
    if a == [] {
      assert a + b == b;
    } else {
      assert (a + b)[0] == a[0] && (a + b)[1..] == a[1..] + b;
      FilterAppend(a[1..], b, keep);
    }
  }

  /** The fold counts what a filter counts: every order once, the pending
      and the delivered ones, and the sum of the totals. */
  lemma {:induction false} TallyDayCounts(orders: seq<OrderRecord>)
    ensures var s := TallyDay(orders);
      && s.totalOrders == |orders|
      && s.totalRevenue == Revenue(orders)
      && s.pendingOrders == CountIf(orders, IsPending)
      && s.completedOrders == CountIf(orders, IsDelivered)
      && s.pendingOrders + s.completedOrders <= s.totalOrders
    decreases |orders|
  {
    if orders != [] {
      TallyDayCounts(orders[..|orders| - 1]);
      FilterLast(orders, IsPending);
      FilterLast(orders, IsDelivered);
    }
  }

  lemma TodayStatsEmpty(orders: seq<OrderRecord>, todayStart: int)
    requires forall i :: 0 <= i < |orders| ==> !InDay(todayStart, orders[i])
    ensures TodayStats(orders, todayStart) == DayStats(0, 0, 0, 0)
  {
    FilterNone(orders, (o: OrderRecord) => InDay(todayStart, o));
  }

  // ---------------------------------------------------------------------
  // Period statistics

  /** `period` of the statistics route; anything else counts as a week. */
  function StartDate(period: string, now: int, todayStart: int, monthAgo: int): (t: int)
    ensures period != "today" && period != "month" ==> t == now - 7 * DayMillis
  {
    if period == "today" then todayStart
    else if period == "month" then monthAgo
    else now - 7 * DayMillis
  }

  datatype PeriodStats = PeriodStats(
    totalOrders: nat, totalRevenue: int, averageOrderValue: int,
    deliveryOrders: nat, pickupOrders: nat, cancelledOrders: nat)

  datatype Tally = Tally(count: nat, revenue: int, delivery: nat, pickup: nat, cancelled: nat)

  function TallyPeriod(orders: seq<OrderRecord>): Tally {
    if orders == [] then Tally(0, 0, 0, 0, 0)
    else
      var t := TallyPeriod(orders[..|orders| - 1]);
      var o := orders[|orders| - 1];
      Tally(t.count + 1, t.revenue + o.totalAmount,
        t.delivery + (if o.orderType == "delivery" then 1 else 0),
        t.pickup + (if o.orderType == "pickup" then 1 else 0),
        t.cancelled + (if o.status == Cancelled then 1 else 0))
  }

  /** The `$group` stage and the rounding of its `$avg` to cents; with no
      order in the period the fallback is all zeros. */
  function Statistics(orders: seq<OrderRecord>, start: int): (r: PeriodStats)
    ensures r.totalOrders == 0 ==> r == PeriodStats(0, 0, 0, 0, 0, 0)
  {
    var t := TallyPeriod(InPeriod(orders, start));
    var average := if t.count == 0 then 0 else RoundDiv(t.revenue, t.count);
    PeriodStats(t.count, t.revenue, average, t.delivery, t.pickup, t.cancelled)
  }

  lemma {:induction false} TallyPeriodCounts(orders: seq<OrderRecord>)
    ensures var t := TallyPeriod(orders);
      && t.count == |orders|
      && t.revenue == Revenue(orders)
      && t.delivery == CountIf(orders, IsDelivery)
      && t.pickup == CountIf(orders, IsPickup)
      && t.cancelled == CountIf(orders, IsCancelled)
      && t.delivery + t.pickup <= t.count
    decreases |orders|
  {
    if orders != [] {
      TallyPeriodCounts(orders[..|orders| - 1]);
      FilterLast(orders, IsDelivery);
      FilterLast(orders, IsPickup);
      FilterLast(orders, IsCancelled);
    }
  }

  /** The statistics count the orders since `start`, and the average is
      their mean total to the nearest cent. */
  lemma StatisticsMeaning(orders: seq<OrderRecord>, start: int)
    ensures var r := Statistics(orders, start);
      var m := InPeriod(orders, start);
      && r.totalOrders == |m|
      && r.totalRevenue == Revenue(m)
      && r.deliveryOrders == CountIf(m, IsDelivery)
      && r.pickupOrders == CountIf(m, IsPickup)
      && r.deliveryOrders + r.pickupOrders <= r.totalOrders
      && r.cancelledOrders == CountIf(m, IsCancelled)
      && (r.totalOrders > 0 ==>
        2 * r.totalOrders * r.averageOrderValue <= 2 * r.totalRevenue + r.totalOrders < 2 * r.totalOrders * (r.averageOrderValue + 1))
  {
    TallyPeriodCounts(InPeriod(orders, start));
  }

  // ---------------------------------------------------------------------
  // topProducts

  datatype ProductTotal = ProductTotal(productId: nat, name: string, totalQuantity: int, totalRevenue: int)

  /** `$unwind: '$items'`: every line of every order, in order, and nothing
      else. */
  function Unwind(orders: seq<OrderRecord>): (r: seq<LineItem>)
    ensures forall o, l :: o in orders && l in o.items ==> l in r
    ensures forall l :: l in r ==> exists o :: o in orders && l in o.items
  {
    if orders == [] then []
    else
      var init := orders[..|orders| - 1];
      var r := Unwind(init) + orders[|orders| - 1].items;
      assert forall o :: o in orders ==> o in init || o == orders[|orders| - 1];
      assert forall o :: o in init ==> o in orders;
      r
  }

  /** The position of the group of `id`, if there is one. */
  function GroupOf(groups: seq<ProductTotal>, id: nat): (r: Option<nat>)
    ensures r.Some? ==> r.value < |groups| && groups[r.value].productId == id
    ensures r.None? ==> forall i :: 0 <= i < |groups| ==> groups[i].productId != id
  {
    if groups == [] then None
    else if groups[|groups| - 1].productId == id then Some(|groups| - 1)
    else GroupOf(groups[..|groups| - 1], id)
  }

  /** The accumulators of one line: `$first` of the name, `$sum` of quantity
      and subtotal. */
  function AddLine(groups: seq<ProductTotal>, l: LineItem): seq<ProductTotal> {
    match GroupOf(groups, l.productId)
    case None => groups + [ProductTotal(l.productId, l.name, l.quantity, l.subtotal)]
    case Some(i) =>
      groups[i := groups[i].(totalQuantity := groups[i].totalQuantity + l.quantity,
                             totalRevenue := groups[i].totalRevenue + l.subtotal)]
  }

  function Group(lines: seq<LineItem>): seq<ProductTotal> {
    if lines == [] then [] else AddLine(Group(lines[..|lines| - 1]), lines[|lines| - 1])
  }

  /** The quantity and revenue of one product over the lines. */
  function QuantityOfProduct(lines: seq<LineItem>, id: nat): int {
    if lines == [] then 0
    else
      QuantityOfProduct(lines[..|lines| - 1], id)
      + (if lines[|lines| - 1].productId == id then lines[|lines| - 1].quantity else 0)
  }

  function RevenueOfProduct(lines: seq<LineItem>, id: nat): int {
    if lines == [] then 0
    else
      RevenueOfProduct(lines[..|lines| - 1], id)
      + (if lines[|lines| - 1].productId == id then lines[|lines| - 1].subtotal else 0)
  }

  predicate DistinctIds(groups: seq<ProductTotal>) {
    forall i, j :: 0 <= i < j < |groups| ==> groups[i].productId != groups[j].productId
  }

  predicate HasLine(lines: seq<LineItem>, id: nat) {
    exists k :: 0 <= k < |lines| && lines[k].productId == id
  }

  /** The groups hold, for each product of the lines and only for those, its
      summed quantity and revenue, and no product twice. */
  ghost predicate Summarises(groups: seq<ProductTotal>, lines: seq<LineItem>) {
    && DistinctIds(groups)
    && (forall i :: 0 <= i < |groups| ==>
      groups[i].totalQuantity == QuantityOfProduct(lines, groups[i].productId)
      && groups[i].totalRevenue == RevenueOfProduct(lines, groups[i].productId))
    && (forall id :: HasLine(lines, id) <==> GroupOf(groups, id).Some?)
  }

  /** The quantity and revenue of one product over the lines of the orders,
      order by order. */
  function QuantitySold(orders: seq<OrderRecord>, id: nat): int {
    if orders == [] then 0
    else QuantitySold(orders[..|orders| - 1], id) + QuantityOfProduct(orders[|orders| - 1].items, id)
  }

  function RevenueSold(orders: seq<OrderRecord>, id: nat): int {
    if orders == [] then 0
    else RevenueSold(orders[..|orders| - 1], id) + RevenueOfProduct(orders[|orders| - 1].items, id)
  }

  /** Some order has a line of the product. */
  predicate Sold(orders: seq<OrderRecord>, id: nat) {
    exists o :: o in orders && HasLine(o.items, id)
  }

  lemma {:induction false} SumsAppend(a: seq<LineItem>, b: seq<LineItem>, id: nat)
    ensures QuantityOfProduct(a + b, id) == QuantityOfProduct(a, id) + QuantityOfProduct(b, id)
    ensures RevenueOfProduct(a + b, id) == RevenueOfProduct(a, id) + RevenueOfProduct(b, id)
    decreases |b|
  {
    if b == [] {
      assert a + b == a;
    } else {
      var n := |b| - 1;
      assert (a + b)[..|a + b| - 1] == a + b[..n];
      SumsAppend(a, b[..n], id);
    }
  }

  /** The unwound lines sum, per product, to what the orders sold of it. */
  lemma {:induction false} UnwindSums(orders: seq<OrderRecord>, id: nat)
    ensures QuantityOfProduct(Unwind(orders), id) == QuantitySold(orders, id)
    ensures RevenueOfProduct(Unwind(orders), id) == RevenueSold(orders, id)
    decreases |orders|
  {
    if orders != [] {
      var init := orders[..|orders| - 1];
      UnwindSums(init, id);
      SumsAppend(Unwind(init), orders[|orders| - 1].items, id);
    }
  }

  /** The unwound lines name a product exactly when some order has a line of
      it. */
  lemma UnwindHasLine(orders: seq<OrderRecord>, id: nat)
    ensures HasLine(Unwind(orders), id) <==> Sold(orders, id)
  {
    var lines := Unwind(orders);
    if HasLine(lines, id) {
      var k :| 0 <= k < |lines| && lines[k].productId == id;
      assert lines[k] in lines;
      var o :| o in orders && lines[k] in o.items;
      var j :| 0 <= j < |o.items| && o.items[j] == lines[k];
    }
    if Sold(orders, id) {
      var o :| o in orders && HasLine(o.items, id);
      var j :| 0 <= j < |o.items| && o.items[j].productId == id;
      assert o.items[j] in lines;
      var k :| 0 <= k < |lines| && lines[k] == o.items[j];
    }
  }

  /** One entry per product that has a line, holding its summed quantity and
      revenue. */
  lemma {:induction false} GroupSums(lines: seq<LineItem>)
    ensures Summarises(Group(lines), lines)
    decreases |lines|
  {
    if lines != [] {
      var init := lines[..|lines| - 1];
      GroupSums(init);
      AddLineSums(Group(init), init, lines[|lines| - 1]);
      assert init + [lines[|lines| - 1]] == lines;
    }
  }

  lemma NoLineNoSum(lines: seq<LineItem>, id: nat)
    requires !HasLine(lines, id)
    ensures QuantityOfProduct(lines, id) == 0 && RevenueOfProduct(lines, id) == 0
    decreases |lines|
  {
    if lines != [] {
      NoLineNoSum(lines[..|lines| - 1], id);
    }
  }

  /** Adding a line to groups that summarise some lines summarises the
      lines with it. */
  lemma AddLineSums(groups: seq<ProductTotal>, lines: seq<LineItem>, l: LineItem)
    requires Summarises(groups, lines)
    ensures Summarises(AddLine(groups, l), lines + [l])
  {
    var all := lines + [l];
    assert all[..|lines|] == lines;
    var g := AddLine(groups, l);
    forall id ensures HasLine(all, id) <==> HasLine(lines, id) || id == l.productId {
      if HasLine(lines, id) {
        var k :| 0 <= k < |lines| && lines[k].productId == id;
        assert all[k] == lines[k];
      }
      if HasLine(all, id) && id != l.productId {
        var k :| 0 <= k < |all| && all[k].productId == id;
        assert k < |lines| && lines[k] == all[k];
      }
      assert all[|lines|] == l;
    }
    match GroupOf(groups, l.productId)
    case Some(k) =>
      forall i | 0 <= i < |g| ensures g[i].productId == groups[i].productId {
      }
      forall i | 0 <= i < |g| && i != k ensures groups[i].productId != l.productId {
      }
      forall id ensures GroupOf(g, id).Some? <==> GroupOf(groups, id).Some? {
        if GroupOf(g, id).Some? {
          assert groups[GroupOf(g, id).value].productId == id;
        }
        if GroupOf(groups, id).Some? {
          assert g[GroupOf(groups, id).value].productId == id;
        }
      }
    case None =>
      NoLineNoSum(lines, l.productId);
      assert g[|groups|].productId == l.productId;
      forall id ensures GroupOf(g, id).Some? <==> GroupOf(groups, id).Some? || id == l.productId {
        if GroupOf(groups, id).Some? {
          assert g[GroupOf(groups, id).value].productId == id;
        }
        if GroupOf(g, id).Some? && id != l.productId {
          var j := GroupOf(g, id).value;
          assert j < |groups| && groups[j].productId == id;
        }
      }
  }

  /** `$sort: {totalQuantity: -1}`; among equal quantities the groups keep
      their order. */
  function ByQuantityDesc(): (ProductTotal, ProductTotal) -> bool {
    (a: ProductTotal, b: ProductTotal) => a.totalQuantity >= b.totalQuantity
  }

  const TopCount := 5

  function TopProductsOf(lines: seq<LineItem>): seq<ProductTotal> {
    Take(InsertionSort(Group(lines), ByQuantityDesc()), TopCount)
  }

  /** The five best-selling products of the orders since `start`. */
  function TopProducts(orders: seq<OrderRecord>, start: int): (r: seq<ProductTotal>)
    ensures |r| <= 5
  {
    TopProductsOf(Unwind(InPeriod(orders, start)))
  }

  /** At most five entries, by quantity descending, each a product of the
      period with its summed quantity, no product twice, and no omitted
      product sold more than a listed one. */
  lemma TopProductsMeaning(lines: seq<LineItem>)
    ensures var r := TopProductsOf(lines);
      var g := Group(lines);
      && |r| <= 5
      && SortedBy(r, ByQuantityDesc())
      && DistinctIds(r)
      && (forall x :: x in r ==>
        x in g && x.totalQuantity == QuantityOfProduct(lines, x.productId)
        && x.totalRevenue == RevenueOfProduct(lines, x.productId))
      && (forall x, y :: x in g && x !in r && y in r ==> y.totalQuantity >= x.totalQuantity)
      && (|r| < TopCount ==> forall x :: x in g ==> x in r)
  {
    var g := Group(lines);
    var r := TopProductsOf(lines);
    GroupSums(lines);
    TopOfRanked(g);
    forall x | x in r
      ensures x.totalQuantity == QuantityOfProduct(lines, x.productId)
      ensures x.totalRevenue == RevenueOfProduct(lines, x.productId)
    {
      var k :| 0 <= k < |g| && g[k] == x;
    }
  }

  /** The first five of the groups ranked by quantity: in rank order, taken
      from the groups, none left out above a kept one, all of them when
      fewer than five are kept, and ids distinct when the groups' are. */
  lemma TopOfRanked(g: seq<ProductTotal>)
    ensures var r := Take(InsertionSort(g, ByQuantityDesc()), TopCount);
      && SortedBy(r, ByQuantityDesc())
      && (forall x :: x in r ==> x in g)
      && (forall x, y :: x in g && x !in r && y in r ==> y.totalQuantity >= x.totalQuantity)
      && (|r| < TopCount ==> forall x :: x in g ==> x in r)
      && (DistinctIds(g) ==> DistinctIds(r))
  {
    var le := ByQuantityDesc();
    var s := InsertionSort(g, le);
    var r := Take(s, TopCount);
    InsertionSortSorted(g, le);
    assert forall x :: x in s <==> x in g by {
      assert forall x :: x in s <==> x in multiset(s);
    }
    forall i, j | 0 <= i < j < |r| ensures le(r[i], r[j]) {
      assert r[i] == s[i] && r[j] == s[j];
    }
    if DistinctIds(g) {
      DistinctAfterSort(g, s);
      forall i, j | 0 <= i < j < |r| ensures r[i].productId != r[j].productId {
        assert r[i] == s[i] && r[j] == s[j];
      }
    }
    forall x, y | x in g && x !in r && y in r ensures y.totalQuantity >= x.totalQuantity {
      var j :| 0 <= j < |s| && s[j] == x;
      var i :| 0 <= i < |r| && r[i] == y;
      assert s[i] == y;
    }
    if |r| < TopCount {
      assert r == s;
    }
  }

  /** A permutation of groups with distinct ids has distinct ids. */
  lemma DistinctAfterSort(g: seq<ProductTotal>, s: seq<ProductTotal>)
    requires DistinctIds(g) && multiset(s) == multiset(g)
    ensures DistinctIds(s)
  {
    assert NoDuplicates(g);
    forall i, j | 0 <= i < j < |s| ensures s[i].productId != s[j].productId {
      if s[i].productId == s[j].productId {
        assert s[i] in multiset(g) && s[j] in multiset(g);
        var a :| 0 <= a < |g| && g[a] == s[i];
        var b :| 0 <= b < |g| && g[b] == s[j];
        assert a == b;
        assert s[i] == s[j];
        assert multiset(s)[s[i]] >= 2 by {
          assert s == s[..j] + [s[j]] + s[j + 1..];
          assert s[i] in s[..j];
        }
        OccursOnce(g, a);
      }
    }
  }

  /** Some entry of the list is the product's. */
  predicate Mentions(r: seq<ProductTotal>, id: nat) {
    exists i :: 0 <= i < |r| && r[i].productId == id
  }

  /** `topProducts`, stated of the orders of the period: at most five
      entries, by quantity descending, no product twice, each a product some
      order of the period has a line of, with its summed quantity and
      revenue; no product left out sold more than a listed one, and fewer
      than five entries list every product sold. */
  lemma TopProductsOfPeriod(orders: seq<OrderRecord>, start: int)
    ensures var r := TopProducts(orders, start);
      var p := InPeriod(orders, start);
      && |r| <= TopCount
      && SortedBy(r, ByQuantityDesc())
      && DistinctIds(r)
      && (forall x :: x in r ==>
        Sold(p, x.productId)
        && x.totalQuantity == QuantitySold(p, x.productId)
        && x.totalRevenue == RevenueSold(p, x.productId))
      && (forall id, y :: Sold(p, id) && !Mentions(r, id) && y in r ==> QuantitySold(p, id) <= y.totalQuantity)
      && (|r| < TopCount ==> forall id :: Sold(p, id) ==> Mentions(r, id))
  {
    var p := InPeriod(orders, start);
    TopProductsMeaning(Unwind(p));
    TopEntriesSold(p);
    TopLeavesOutLess(p);
    TopListsAllWhenShort(p);
  }

  lemma TopEntriesSold(p: seq<OrderRecord>)
    ensures forall x :: x in TopProductsOf(Unwind(p)) ==>
      Sold(p, x.productId)
      && x.totalQuantity == QuantitySold(p, x.productId)
      && x.totalRevenue == RevenueSold(p, x.productId)
  {
    TopProductsMeaning(Unwind(p));
    GroupEntries(Unwind(p));
    PeriodLines(p);
  }

  lemma TopLeavesOutLess(p: seq<OrderRecord>)
    ensures var r := TopProductsOf(Unwind(p));
      forall id, y :: Sold(p, id) && !Mentions(r, id) && y in r ==> QuantitySold(p, id) <= y.totalQuantity
  {
    var lines := Unwind(p);
    var g := Group(lines);
    var r := TopProductsOf(lines);
    TopProductsMeaning(lines);
    GroupEntries(lines);
    PeriodLines(p);
    forall id, y | Sold(p, id) && !Mentions(r, id) && y in r ensures QuantitySold(p, id) <= y.totalQuantity {
      var k := GroupOf(g, id).value;
      assert g[k] in g;
      NotMentioned(r, g[k], id);
    }
  }

  lemma TopListsAllWhenShort(p: seq<OrderRecord>)
    ensures var r := TopProductsOf(Unwind(p));
      |r| < TopCount ==> forall id :: Sold(p, id) ==> Mentions(r, id)
  {
    var lines := Unwind(p);
    var g := Group(lines);
    var r := TopProductsOf(lines);
    TopProductsMeaning(lines);
    GroupEntries(lines);
    PeriodLines(p);
    if |r| < TopCount {
      forall id | Sold(p, id) ensures Mentions(r, id) {
        var k := GroupOf(g, id).value;
        assert g[k] in g;
        var i :| 0 <= i < |r| && r[i] == g[k];
      }
    }
  }

  lemma NotMentioned(r: seq<ProductTotal>, x: ProductTotal, id: nat)
    requires !Mentions(r, id) && x.productId == id
    ensures x !in r
  {
    forall i | 0 <= i < |r| ensures r[i] != x {
    }
  }

  /** Each product with a line has its group, holding its quantity, and
      each group is of a product with a line. */
  lemma GroupEntries(lines: seq<LineItem>)
    ensures forall id :: HasLine(lines, id) ==>
      GroupOf(Group(lines), id).Some? && Group(lines)[GroupOf(Group(lines), id).value].totalQuantity == QuantityOfProduct(lines, id)
    ensures forall x :: x in Group(lines) ==> HasLine(lines, x.productId)
  {
    var g := Group(lines);
    GroupSums(lines);
    forall x | x in g ensures HasLine(lines, x.productId) {
      var k :| 0 <= k < |g| && g[k] == x;
    }
  }

  /** The lines of the period are those of its orders, product by product. */
  lemma PeriodLines(p: seq<OrderRecord>)
    ensures forall id :: HasLine(Unwind(p), id) <==> Sold(p, id)
    ensures forall id :: QuantityOfProduct(Unwind(p), id) == QuantitySold(p, id)
    ensures forall id :: RevenueOfProduct(Unwind(p), id) == RevenueSold(p, id)
  {
    forall id
      ensures HasLine(Unwind(p), id) <==> Sold(p, id)
      ensures QuantityOfProduct(Unwind(p), id) == QuantitySold(p, id)
      ensures RevenueOfProduct(Unwind(p), id) == RevenueSold(p, id)
    {
      UnwindHasLine(p, id);
      UnwindSums(p, id);
    }
  }
}
