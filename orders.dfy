/** The customer and admin order handlers: placement (input checks, the
    item loop that prices lines and bumps each product's order count, the
    totals in cents, the preparation estimate, the save), the customer's
    cancel and the admin's status update. */
module Orders {
  import opened Common
  import opened Text
  import opened OrderModel
  import opened ProductModel

  // ---------------------------------------------------------------------
  // Request shapes; `None` is a field the body leaves out

  datatype ItemRequest = ItemRequest(productId: Option<IdParam>, quantity: Option<int>, notes: Option<string>)

  datatype DeliveryRequest = DeliveryRequest(address: Option<Address>, instructions: Option<string>)

  datatype ContactRequest = ContactRequest(phone: Option<string>, email: Option<string>)

  /** `req.body` of `POST /api/orders`; `items` is `None` when missing or
      not an array. */
  datatype PlaceRequest = PlaceRequest(
    items: Option<seq<ItemRequest>>,
    orderType: Option<string>,
    deliveryInfo: Option<DeliveryRequest>,
    contactInfo: Option<ContactRequest>,
    notes: Option<string>,
    requestedTime: Option<int>)

  const NoItemsMessage := "Almeno un prodotto è richiesto per l'ordine"
  const NoContactMessage := "Informazioni di contatto (telefono ed email) sono obbligatorie"
  const NoAddressMessage := "Indirizzo di consegna completo richiesto per le consegne"
  const BadItemMessage := "ProductId e quantity validi sono richiesti per ogni prodotto"
  const InvalidProductIdMessage := "ID prodotto non valido"

  function UnavailableMessage(id: nat): string {
    "Prodotto non disponibile: " + NatToString(id)
  }

  /** The destructuring default `orderType = 'delivery'`. */
  function OrderTypeOf(req: PlaceRequest): string {
    if req.orderType.Some? then req.orderType.value else "delivery"
  }

  predicate CompleteAddress(d: Option<DeliveryRequest>) {
    && d.Some? && d.value.address.Some?
    && Truthy(d.value.address.value.street)
    && Truthy(d.value.address.value.city)
    && Truthy(d.value.address.value.zipCode)
  }

  /** The three checks made before any product is read, in order. */
  function RequestError(req: PlaceRequest): (r: Option<string>)
    ensures r.None? <==>
      && req.items.Some? && |req.items.value| > 0
      && req.contactInfo.Some? && Truthy(req.contactInfo.value.phone) && Truthy(req.contactInfo.value.email)
      && (OrderTypeOf(req) == "delivery" ==> CompleteAddress(req.deliveryInfo))
    ensures req.items.None? || req.items == Some([]) ==> r == Some(NoItemsMessage)
  {
    if req.items.None? || |req.items.value| == 0 then Some(NoItemsMessage)
    else if req.contactInfo.None? || !Truthy(req.contactInfo.value.phone) || !Truthy(req.contactInfo.value.email) then
      Some(NoContactMessage)
    else if OrderTypeOf(req) == "delivery" && !CompleteAddress(req.deliveryInfo) then Some(NoAddressMessage)
    else None
  }

  // ---------------------------------------------------------------------
  // The item loop, as a fold

  /** The state of the loop: a rejection message once one item failed, the
      priced lines, their running subtotal and the product collection with
      the counts bumped so far. */
  datatype ItemsRun = ItemsRun(rejected: Option<string>, lines: seq<LineItem>, subtotal: int, products: seq<Product>)

  /** The item passes `!item.productId || !item.quantity || item.quantity < 1`. */
  predicate WellFormedItem(item: ItemRequest) {
    item.productId.Some? && item.quantity.Some? && item.quantity.value >= 1
  }

  /** A well-formed item whose product id the database can cast. */
  predicate CastableItem(item: ItemRequest) {
    WellFormedItem(item) && item.productId.value.Id?
  }

  /** `Product.findOne({_id, available: true, status: 'published'})`; with
      distinct ids, nothing is found exactly when no listed product has the
      id. */
  function FindListed(products: seq<Product>, id: nat): (r: Option<nat>)
    ensures r.Some? ==> r.value < |products| && products[r.value].id == id && Listed(products[r.value])
    ensures r.None? && (forall i, j :: 0 <= i < j < |products| ==> products[i].id != products[j].id) ==>
      forall i :: 0 <= i < |products| && products[i].id == id ==> !Listed(products[i])
  {
    var k := Find(products, id);
    if k.Some? && Listed(products[k.value]) then k else None
  }

  function PriceLine(p: Product, item: ItemRequest): LineItem
    requires WellFormedItem(item)
  {
    LineItem(p.id, p.name, p.price, item.quantity.value, p.price * item.quantity.value,
      if Truthy(item.notes) then item.notes.value else "")
  }

  /** One iteration of the loop. */
  function StepItem(run: ItemsRun, item: ItemRequest): ItemsRun {
    if run.rejected.Some? then run
    else if !WellFormedItem(item) then run.(rejected := Some(BadItemMessage))
    else if item.productId.value.BadId? then run.(rejected := Some(InvalidProductIdMessage))
    else
      match FindListed(run.products, item.productId.value.n)
      case None => run.(rejected := Some(UnavailableMessage(item.productId.value.n)))
      case Some(i) =>
        var p := run.products[i];
        var line := PriceLine(p, item);
        ItemsRun(None, run.lines + [line], run.subtotal + line.subtotal,
          run.products[i := p.(orderCount := p.orderCount + item.quantity.value)])
  }

  function ProcessItems(items: seq<ItemRequest>, products: seq<Product>): ItemsRun {
    if items == [] then ItemsRun(None, [], 0, products)
    else StepItem(ProcessItems(items[..|items| - 1], products), items[|items| - 1])
  }

  /** Once an item is rejected, the later items change nothing. */
  lemma {:induction false} RejectionSticks(items: seq<ItemRequest>, products: seq<Product>, k: nat)
    requires k <= |items| && ProcessItems(items[..k], products).rejected.Some?
    ensures ProcessItems(items, products) == ProcessItems(items[..k], products)
    decreases |items| - k
  {
    if k < |items| {
      var n := |items|;
      RejectionSticksPrefix(items, products, k, n - 1);
      assert items[..n - 1][..k] == items[..k];
      assert items[..n] == items;
    } else {
      assert items[..k] == items;
    }
  }

  lemma {:induction false} RejectionSticksPrefix(items: seq<ItemRequest>, products: seq<Product>, k: nat, m: nat)
    requires k <= m <= |items| && ProcessItems(items[..k], products).rejected.Some?
    ensures ProcessItems(items[..m], products) == ProcessItems(items[..k], products)
    decreases m - k
  {
    if m > k {
      RejectionSticksPrefix(items, products, k, m - 1);
      assert items[..m][..m - 1] == items[..m - 1];
    }
  }

  /** Bumping order counts leaves everything else of every product as it was. */
  predicate SameButCounts(ps: seq<Product>, qs: seq<Product>) {
    |ps| == |qs| && forall i :: 0 <= i < |ps| ==> qs[i] == ps[i].(orderCount := qs[i].orderCount)
  }

  lemma FindSameButCounts(ps: seq<Product>, qs: seq<Product>, id: nat)
    requires SameButCounts(ps, qs)
    ensures FindListed(ps, id) == FindListed(qs, id)
  {
    FindSame(ps, qs, id);
  }

  lemma {:induction false} FindSame(ps: seq<Product>, qs: seq<Product>, id: nat)
    requires SameButCounts(ps, qs)
    ensures Find(ps, id) == Find(qs, id)
    decreases |ps|
  {
    if ps != [] {
      assert qs[0].id == ps[0].id;
      FindSame(ps[1..], qs[1..], id);
    }
  }

  /** The item an accepted run has to accept, judged on the products as they
      were before the request. */
  predicate Acceptable(products: seq<Product>, item: ItemRequest) {
    CastableItem(item) && FindListed(products, item.productId.value.n).Some?
  }

  /** The loop changes no product but in its order count. */
  lemma {:induction false} ProcessItemsKeepsProducts(items: seq<ItemRequest>, products: seq<Product>)
    ensures SameButCounts(products, ProcessItems(items, products).products)
    decreases |items|
  {
    if items != [] {
      ProcessItemsKeepsProducts(items[..|items| - 1], products);
    }
  }

  /** The loop's products only differ in counts, it prices one line per
      item, and its subtotal is the sum of the line subtotals. */
  lemma {:induction false} ProcessItemsShape(items: seq<ItemRequest>, products: seq<Product>)
    ensures var run := ProcessItems(items, products);
      && SameButCounts(products, run.products)
      && run.subtotal == SumSubtotals(run.lines)
      && (forall j :: 0 <= j < |run.lines| ==> run.lines[j].subtotal == run.lines[j].price * run.lines[j].quantity)
      && (forall j :: 0 <= j < |run.lines| ==> run.lines[j].quantity >= 1)
      && (run.rejected.None? ==> |run.lines| == |items|)
  {
    ProcessItemsKeepsProducts(items, products);
    ProcessItemsPriced(items, products);
  }

  /** The lines of a run are priced honestly and add up to its subtotal. */
  predicate PricedLines(run: ItemsRun) {
    && run.subtotal == SumSubtotals(run.lines)
    && (forall j :: 0 <= j < |run.lines| ==> run.lines[j].subtotal == run.lines[j].price * run.lines[j].quantity)
    && (forall j :: 0 <= j < |run.lines| ==> run.lines[j].quantity >= 1)
  }

  lemma {:induction false} ProcessItemsPriced(items: seq<ItemRequest>, products: seq<Product>)
    ensures PricedLines(ProcessItems(items, products))
    ensures ProcessItems(items, products).rejected.None? ==> |ProcessItems(items, products).lines| == |items|
    decreases |items|
  {
    if items != [] {
      ProcessItemsPriced(items[..|items| - 1], products);
      StepItemPriced(ProcessItems(items[..|items| - 1], products), items[|items| - 1]);
    }
  }

  /** One iteration keeps the lines priced and, unless it rejects, adds one. */
  lemma StepItemPriced(run: ItemsRun, item: ItemRequest)
    requires PricedLines(run)
    ensures PricedLines(StepItem(run, item))
    ensures StepItem(run, item).rejected.None? ==> run.rejected.None? && |StepItem(run, item).lines| == |run.lines| + 1
  {
    var next := StepItem(run, item);
    if next.lines != run.lines {
      assert next.lines[..|next.lines| - 1] == run.lines;
    }
  }

  /** The placement loop accepts every item exactly when each is well formed
      and names a product that is available and published. */
  lemma ProcessItemsAccepts(items: seq<ItemRequest>, products: seq<Product>)
    ensures ProcessItems(items, products).rejected.None? <==>
      forall j :: 0 <= j < |items| ==> Acceptable(products, items[j])
  {
    AcceptsAll(items, products);
    AllAcceptableEach(items, products);
  }

  /** Every item is acceptable, as the loop sees them: one at a time. */
  predicate AllAcceptable(products: seq<Product>, items: seq<ItemRequest>) {
    items == [] || (AllAcceptable(products, items[..|items| - 1]) && Acceptable(products, items[|items| - 1]))
  }

  lemma {:induction false} AcceptsAll(items: seq<ItemRequest>, products: seq<Product>)
    ensures ProcessItems(items, products).rejected.None? <==> AllAcceptable(products, items)
    decreases |items|
  {
    if items != [] {
      var init := items[..|items| - 1];
      AcceptsAll(init, products);
      ProcessItemsKeepsProducts(init, products);
      StepAccepts(ProcessItems(init, products), products, items[|items| - 1]);
    }
  }

  lemma {:induction false} AllAcceptableEach(items: seq<ItemRequest>, products: seq<Product>)
    ensures AllAcceptable(products, items) <==> forall j :: 0 <= j < |items| ==> Acceptable(products, items[j])
    decreases |items|
  {
    if items != [] {
      var init := items[..|items| - 1];
      AllAcceptableEach(init, products);
      assert forall j :: 0 <= j < |init| ==> init[j] == items[j];
    }
  }

  /** A step after accepted items accepts the next item exactly when it is
      acceptable on the original products. */
  lemma StepAccepts(run: ItemsRun, products: seq<Product>, item: ItemRequest)
    requires SameButCounts(products, run.products)
    ensures StepItem(run, item).rejected.None? <==> run.rejected.None? && Acceptable(products, item)
  {
    if CastableItem(item) {
      FindSameButCounts(products, run.products, item.productId.value.n);
    }
  }

  /** The first rejected item decides the message (a missing field, an id
      the database cannot cast, or a product not on sale); the counts bumped
      by the items before it stay bumped. */
  lemma FirstRejectionDecides(items: seq<ItemRequest>, products: seq<Product>, k: nat)
    requires k < |items|
    requires forall j :: 0 <= j < k ==> Acceptable(products, items[j])
    requires !Acceptable(products, items[k])
    ensures var run := ProcessItems(items, products);
      && run.rejected == Some(
        if !WellFormedItem(items[k]) then BadItemMessage
        else if items[k].productId.value.BadId? then InvalidProductIdMessage
        else UnavailableMessage(items[k].productId.value.n))
      && run.products == ProcessItems(items[..k], products).products
  {
    var pre := items[..k];
    assert forall j :: 0 <= j < |pre| ==> pre[j] == items[j];
    ProcessItemsAccepts(pre, products);
    ProcessItemsShape(pre, products);
    var prev := ProcessItems(pre, products);
    if CastableItem(items[k]) {
      FindSameButCounts(products, prev.products, items[k].productId.value.n);
    }
    assert items[..k + 1][..k] == pre;
    RejectionSticks(items, products, k + 1);
  }

  /** The quantity the items order of one product. */
  function QuantityOf(items: seq<ItemRequest>, id: nat): int {
    if items == [] then 0
    else
      var last := items[|items| - 1];
      QuantityOf(items[..|items| - 1], id)
      + (if WellFormedItem(last) && last.productId.value == Id(id) then last.quantity.value else 0)
  }

  /** With distinct ids, an accepted run bumps every product's count by the
      quantity ordered of it. */
  lemma {:induction false} ProcessItemsCounts(items: seq<ItemRequest>, products: seq<Product>)
    requires forall i, j :: 0 <= i < j < |products| ==> products[i].id != products[j].id
    requires ProcessItems(items, products).rejected.None?
    ensures |ProcessItems(items, products).products| == |products|
    ensures var run := ProcessItems(items, products);
      forall i :: 0 <= i < |products| ==>
        run.products[i].orderCount == products[i].orderCount + QuantityOf(items, products[i].id)
    decreases |items|
  {
    if items != [] {
      var init := items[..|items| - 1];
      var prev := ProcessItems(init, products);
      var item := items[|items| - 1];
      ProcessItemsCounts(init, products);
      ProcessItemsShape(init, products);
      var k := FindListed(prev.products, item.productId.value.n).value;
      forall i | 0 <= i < |products| && i != k
        ensures products[i].id != item.productId.value.n
      {
        assert prev.products[i].id == products[i].id;
      }
    }
  }

  // ---------------------------------------------------------------------
  // Totals in cents

  /** `Math.round(n / d)`: the nearest integer, halves rounded up. */
  function RoundDiv(n: int, d: int): (r: int)
    requires d > 0
    ensures 2 * d * r <= 2 * n + d < 2 * d * (r + 1)
  {
    (2 * n + d) / (2 * d)
  }

  const TaxRatePercent := 10
  const DeliveryFeeCents := 350

  /** `Math.round(subtotal * 0.10 * 100) / 100`, in cents. */
  function Tax(subtotal: int): int {
    RoundDiv(subtotal, 10)
  }

  function DeliveryFee(orderType: string): (fee: int)
    ensures fee == (if orderType == "delivery" then 350 else 0)
  {
    if orderType == "delivery" then DeliveryFeeCents else 0
  }

  /** `Math.round((subtotal + subtotal * 0.10 + fee) * 100) / 100`: the
      unrounded tax enters the rounding. */
  function StoredTotal(subtotal: int, orderType: string): int {
    RoundDiv(11 * subtotal + 10 * DeliveryFee(orderType), 10)
  }

  /** Rounding once at the end and rounding the tax alone agree in whole
      cents: the stored total is the stored subtotal, tax and fee. */
  lemma StoredTotalIsSum(subtotal: int, orderType: string)
    ensures StoredTotal(subtotal, orderType) == subtotal + Tax(subtotal) + DeliveryFee(orderType)
  {
    var fee := DeliveryFee(orderType);
    var t := Tax(subtotal);
    var r := StoredTotal(subtotal, orderType);
    assert 20 * t <= 2 * subtotal + 10 < 20 * (t + 1);
    assert 20 * r <= 2 * (11 * subtotal + 10 * fee) + 10 < 20 * (r + 1);
  }

  /** The tax is a tenth of the subtotal to within half a cent. */
  lemma TaxIsTenPercent(subtotal: int)
    ensures 20 * Tax(subtotal) <= 2 * subtotal + 10 < 20 * Tax(subtotal) + 20
  {
  }

  lemma TotalsExample()
    ensures Tax(1700) == 170 && StoredTotal(1700, "delivery") == 2220 && StoredTotal(1700, "pickup") == 1870
    ensures Tax(1234) == 123 && Tax(1235) == 124
  {
  }

  const MinuteMillis := 60000

  /** `now` plus 45 minutes for a delivery, 30 otherwise. */
  function Estimate(now: int, orderType: string): (t: int)
    ensures t == now + (if orderType == "delivery" then 45 else 30) * 60000
  {
    now + (if orderType == "delivery" then 45 else 30) * MinuteMillis
  }

  // ---------------------------------------------------------------------
  // Placement

  /** The delivery sub-document: address, instructions and estimate only for
      deliveries. */
  function DeliveryInfoFor(req: PlaceRequest, now: int): (d: DeliveryInfo)
    ensures OrderTypeOf(req) != "delivery" ==> d == NoDeliveryInfo
    ensures OrderTypeOf(req) == "delivery" ==> d.estimatedDeliveryTime == Some(Estimate(now, "delivery"))
  {
    if OrderTypeOf(req) == "delivery" then
      var di := if req.deliveryInfo.Some? then req.deliveryInfo.value else DeliveryRequest(None, None);
      DeliveryInfo(di.address, if Truthy(di.instructions) then di.instructions.value else "",
        Some(Estimate(now, "delivery")), None)
    else NoDeliveryInfo
  }

  function ContactOf(req: PlaceRequest): ContactInfo {
    var c := if req.contactInfo.Some? then req.contactInfo.value else ContactRequest(None, None);
    ContactInfo(if c.phone.Some? then c.phone.value else "", if c.email.Some? then c.email.value else "")
  }

  function NotesOf(req: PlaceRequest): string {
    if Truthy(req.notes) then req.notes.value else ""
  }

  datatype Placement =
    | Placed(order: OrderDocument)
    | Refused(code: int, message: string, errors: seq<string>)

  /** One pass of the item loop: reject the item, or price it and bump and
      save its product's count. */
  method RunItem(store: ProductStore, item: ItemRequest, lines: seq<LineItem>, subtotal: int)
    returns (rejected: Option<string>, lines': seq<LineItem>, subtotal': int)
    requires store.Valid()
    modifies store`products
    ensures store.Valid()
    ensures StepItem(ItemsRun(None, lines, subtotal, old(store.products)), item)
         == ItemsRun(rejected, lines', subtotal', store.products)
  {
    lines', subtotal' := lines, subtotal;
    if item.productId.None? || item.quantity.None? || item.quantity.value < 1 {
      return Some(BadItemMessage), lines, subtotal;
    }
    if item.productId.value.BadId? {
      return Some(InvalidProductIdMessage), lines, subtotal;
    }
    var found := FindListed(store.products, item.productId.value.n);
    if found.None? {
      return Some(UnavailableMessage(item.productId.value.n)), lines, subtotal;
    }
    var i := found.value;
    var line := PriceLine(store.products[i], item);
    store.BumpOrderCount(i, item.quantity.value);
    return None, lines + [line], subtotal + line.subtotal;
  }

  /** The item loop of `POST /api/orders`; the bumps made before a rejection
      stay. */
  method RunItems(store: ProductStore, items: seq<ItemRequest>)
    returns (rejected: Option<string>, lines: seq<LineItem>, subtotal: int)
    requires store.Valid()
    modifies store`products
    ensures store.Valid()
    ensures ProcessItems(items, old(store.products)) == ItemsRun(rejected, lines, subtotal, store.products)
  {
    ghost var products0 := store.products;
    lines := [];
    subtotal := 0;
    var k := 0;
    while k < |items|
      invariant 0 <= k <= |items|
      invariant store.Valid()
      invariant ProcessItems(items[..k], products0) == ItemsRun(None, lines, subtotal, store.products)
    {
      assert items[..k + 1][..k] == items[..k];
      rejected, lines, subtotal := RunItem(store, items[k], lines, subtotal);
      if rejected.Some? {
        RejectionSticks(items, products0, k + 1);
        return;
      }
      k := k + 1;
    }
    assert items[..k] == items;
    rejected := None;
  }

  /** The schema errors of the order the handler builds from accepted lines. */
  function PlacementErrors(req: PlaceRequest, lines: seq<LineItem>, subtotal: int, now: int): seq<OrderViolation> {
    var ot := OrderTypeOf(req);
    var di := DeliveryInfoFor(req, now);
    var c := ContactOf(req);
    OrderErrors(TrimItemNotes(lines), subtotal, Tax(subtotal), DeliveryFee(ot), StoredTotal(subtotal, ot), ot,
      TrimInstructions(di), NormalContact(c), Trim(NotesOf(req)))
  }

  /** `new Order({...})` from accepted lines: the fields as the handler
      computes them, before any hook has run. */
  method NewOrder(userId: nat, req: PlaceRequest, lines: seq<LineItem>, subtotal: int, now: int)
    returns (order: OrderDocument)
    ensures fresh(order)
    ensures order.ValidationErrors() == PlacementErrors(req, lines, subtotal, now)
    ensures order.userId == userId && order.items == TrimItemNotes(lines)
    ensures order.subtotal == subtotal && order.tax == Tax(subtotal)
    ensures order.deliveryFee == DeliveryFee(OrderTypeOf(req))
    ensures order.totalAmount == StoredTotal(subtotal, OrderTypeOf(req))
    ensures order.orderType == OrderTypeOf(req)
    ensures order.deliveryInfo == TrimInstructions(DeliveryInfoFor(req, now))
    ensures order.contactInfo == NormalContact(ContactOf(req))
    ensures order.notes == Trim(NotesOf(req)) && order.requestedTime == req.requestedTime
    ensures order.status == Pending && order.paymentStatus == PaymentPending && order.statusHistory == []
    ensures order.isNew && order.orderNumber == None && !order.statusModified
  {
    var orderType := OrderTypeOf(req);
    order := new OrderDocument(
      userId, lines, subtotal, Tax(subtotal), DeliveryFee(orderType), StoredTotal(subtotal, orderType),
      orderType, DeliveryInfoFor(req, now), ContactOf(req), NotesOf(req), req.requestedTime, Pending);
  }

  /** `new Order({...})` and `order.save()` for accepted lines. */
  method SaveNewOrder(
    userId: nat, req: PlaceRequest, lines: seq<LineItem>, subtotal: int,
    today: CalendarDate, todayCount: nat, now: int) returns (result: Placement)
    ensures PlacementErrors(req, lines, subtotal, now) != [] ==>
      result == Refused(400, ValidationMessage, OrderMessages(PlacementErrors(req, lines, subtotal, now)))
    ensures PlacementErrors(req, lines, subtotal, now) == [] ==>
      && result.Placed? && fresh(result.order)
      && result.order.userId == userId
      && result.order.items == TrimItemNotes(lines)
      && result.order.subtotal == subtotal
      && result.order.tax == Tax(subtotal)
      && result.order.deliveryFee == DeliveryFee(OrderTypeOf(req))
      && result.order.totalAmount == StoredTotal(subtotal, OrderTypeOf(req))
      && result.order.orderType == OrderTypeOf(req)
      && result.order.deliveryInfo == TrimInstructions(DeliveryInfoFor(req, now))
      && result.order.contactInfo == NormalContact(ContactOf(req))
      && result.order.notes == Trim(NotesOf(req))
      && result.order.requestedTime == req.requestedTime
      && result.order.status == Pending
      && result.order.paymentStatus == PaymentPending
      && result.order.orderNumber == Some(OrderNumber(today, todayCount))
      && result.order.statusHistory == [HistoryEntry(Pending, now, CreatedNote)]
      && result.order.createdAt == now
      && !result.order.isNew
  {
    var order := NewOrder(userId, req, lines, subtotal, now);
    var errors := order.Save(today, todayCount, now);
    FirstSaveHistory(Pending, false, now);
    if errors != [] {
      return Refused(400, ValidationMessage, OrderMessages(errors));
    }
    return Placed(order);
  }

  /** `POST /api/orders`. The products bumped by the loop stay bumped
      whatever happens afterwards. */
  method PlaceOrder(
    store: ProductStore, userId: nat, req: PlaceRequest,
    today: CalendarDate, todayCount: nat, now: int) returns (result: Placement)
    requires store.Valid()
    modifies store`products
    ensures store.Valid()
    ensures RequestError(req).Some? ==>
      result == Refused(400, RequestError(req).value, []) && store.products == old(store.products)
    ensures RequestError(req).None? ==>
      var run := ProcessItems(req.items.value, old(store.products));
      && store.products == run.products
      && (run.rejected.Some? ==> result == Refused(400, run.rejected.value, []))
      && (run.rejected.None? && PlacementErrors(req, run.lines, run.subtotal, now) != [] ==>
        result == Refused(400, ValidationMessage, OrderMessages(PlacementErrors(req, run.lines, run.subtotal, now))))
      && (run.rejected.None? && PlacementErrors(req, run.lines, run.subtotal, now) == [] ==>
        && result.Placed? && fresh(result.order)
        && result.order.userId == userId
        && result.order.items == TrimItemNotes(run.lines)
        && result.order.subtotal == run.subtotal
        && result.order.tax == Tax(run.subtotal)
        && result.order.deliveryFee == DeliveryFee(OrderTypeOf(req))
        && result.order.totalAmount == StoredTotal(run.subtotal, OrderTypeOf(req))
        && result.order.orderType == OrderTypeOf(req)
        && result.order.deliveryInfo == TrimInstructions(DeliveryInfoFor(req, now))
        && result.order.contactInfo == NormalContact(ContactOf(req))
        && result.order.notes == Trim(NotesOf(req))
        && result.order.requestedTime == req.requestedTime
        && result.order.status == Pending
        && result.order.orderNumber == Some(OrderNumber(today, todayCount))
        && result.order.statusHistory == [HistoryEntry(Pending, now, CreatedNote)]
        && result.order.createdAt == now)
  {
    var check := RequestError(req);
    if check.Some? {
      return Refused(400, check.value, []);
    }
    var rejected, lines, subtotal := RunItems(store, req.items.value);
    if rejected.Some? {
      return Refused(400, rejected.value, []);
    }
    result := SaveNewOrder(userId, req, lines, subtotal, today, todayCount, now);
  }

  /** An accepted placement stores totals that `calculateTotal` reproduces:
      the subtotal is the sum of the lines, and the total is subtotal, tax and
      fee. */
  lemma PlacedTotalsConsistent(items: seq<ItemRequest>, products: seq<Product>, orderType: string)
    ensures var run := ProcessItems(items, products);
      && SumSubtotals(TrimItemNotes(run.lines)) == run.subtotal
      && StoredTotal(run.subtotal, orderType) == run.subtotal + Tax(run.subtotal) + DeliveryFee(orderType)
  {
    var run := ProcessItems(items, products);
    ProcessItemsShape(items, products);
    SumSubtotalsTrim(run.lines);
    StoredTotalIsSum(run.subtotal, orderType);
  }

  lemma {:induction false} SumSubtotalsTrim(lines: seq<LineItem>)
    ensures SumSubtotals(TrimItemNotes(lines)) == SumSubtotals(lines)
    decreases |lines|
  {
    if lines != [] {
      var t := TrimItemNotes(lines);
      SumSubtotalsTrim(lines[..|lines| - 1]);
      assert t[..|t| - 1] == TrimItemNotes(lines[..|lines| - 1]);
    }
  }

  /** An order type outside the schema's enum is not `delivery`, so no address
      is asked for, the loop runs and bumps the counts, and only then does
      validation refuse the order. */
  lemma UnknownOrderTypeFailsAfterBumps(req: PlaceRequest, lines: seq<LineItem>, subtotal: int, now: int)
    requires OrderTypeOf(req) !in OrderTypes
    ensures PlacementErrors(req, lines, subtotal, now) != []
  {
    var ot := OrderTypeOf(req);
    var di := DeliveryInfoFor(req, now);
    var c := ContactOf(req);
    OrderErrorsEmpty(TrimItemNotes(lines), subtotal, Tax(subtotal), DeliveryFee(ot), StoredTotal(subtotal, ot), ot,
      TrimInstructions(di), NormalContact(c), Trim(NotesOf(req)));
  }

  // ---------------------------------------------------------------------
  // Cancel and status update on a loaded order

  const NotFoundMessage := "Ordine non trovato"
  const NotCancellableMessage := "L'ordine non può essere cancellato in questo stato"
  const CancelNote := "Cancellato dal cliente"
  const InvalidStatusMessage := "Stato non valido"
  const InvalidOrderIdMessage := "ID ordine non valido"

  /** The schema's `trim` setter leaves the fixed cancel note as it is. */
  lemma CancelNoteTrimmed()
    ensures Trim(CancelNote) == CancelNote
  {
    TrimUnpadded(CancelNote);
  }

  predicate Cancellable(s: Status) {
    s == Pending || s == Confirmed
  }

  /** `PATCH /api/orders/:id/cancel`. `order` is the document with the
      requested id (`null` when there is none); the lookup also requires it
      to belong to the caller. An id the database cannot cast fails the
      lookup, and the handler's catch answers 500. */
  method CancelOrder(id: IdParam, order: OrderDocument?, userId: nat, now: int)
    returns (r: Reply<Status>)
    requires order != null ==> !order.isNew && !order.statusModified
    modifies order
    ensures id.BadId? ==> r == Fail(500, ServerErrorMessage, []) && (order != null ==> unchanged(order))
    ensures id.Id? && (order == null || order.userId != userId) ==> r == Fail(404, NotFoundMessage, [])
    ensures id.Id? && order != null && order.userId == userId && !Cancellable(old(order.status)) ==>
      r == Fail(400, NotCancellableMessage, [])
    ensures order != null && (id.BadId? || order.userId != userId || !Cancellable(old(order.status))) ==> unchanged(order)
    ensures id.Id? && order != null && order.userId == userId && Cancellable(old(order.status)) ==>
      && order.status == Cancelled
      && (old(order.ValidationErrors()) == [] ==>
        && r == Ok(200, Cancelled)
        && order.statusHistory == old(order.statusHistory)
          + [HistoryEntry(Cancelled, now, CancelNote), HistoryEntry(Cancelled, now, UpdatedNote(Cancelled))])
      && (old(order.ValidationErrors()) != [] ==> r == Fail(500, ServerErrorMessage, []))
  {
    if id.BadId? {
      return Fail(500, ServerErrorMessage, []);
    }
    if order == null || order.userId != userId {
      return Fail(404, NotFoundMessage, []);
    }
    if !Cancellable(order.status) {
      return Fail(400, NotCancellableMessage, []);
    }
    order.SetStatus(Cancelled);
    order.PushHistory(HistoryEntry(Cancelled, now, CancelNote));  // the trim setter keeps it: CancelNoteTrimmed
    var errors := order.SaveExisting(now);
    if errors != [] {
      return Fail(500, ServerErrorMessage, []);
    }
    return Ok(200, Cancelled);
  }

  function DefaultStatusNote(from: Status, to: Status): string {
    "Stato aggiornato da " + StatusName(from) + " a " + StatusName(to)
  }

  /** The in-memory changes of the status update: the new status, its history
      entry (the given note, or one naming both statuses) and, for a
      delivery, the delivery time. */
  method ApplyStatus(order: OrderDocument, s: Status, note: Option<string>, now: int)
    modifies order`status, order`statusModified, order`statusHistory, order`deliveryInfo
    ensures order.status == s
    ensures order.statusModified == (old(order.statusModified) || s != old(order.status))
    ensures order.statusHistory == old(order.statusHistory)
      + [HistoryEntry(s, now, Trim(if Truthy(note) then note.value else DefaultStatusNote(old(order.status), s)))]
    ensures order.deliveryInfo ==
      if s == Delivered then old(order.deliveryInfo).(actualDeliveryTime := Some(now)) else old(order.deliveryInfo)
    ensures order.ValidationErrors() == old(order.ValidationErrors())
  {
    var oldStatus := order.status;
    order.SetStatus(s);
    var text := if Truthy(note) then note.value else DefaultStatusNote(oldStatus, s);
    order.PushHistory(HistoryEntry(s, now, Trim(text)));
    if s == Delivered {
      order.SetActualDeliveryTime(now);
    }
  }

  /** `PATCH /api/orders/:id/status`: any of the seven statuses is accepted
      from any current status. The status is checked before the id; an id
      the database cannot cast is reported as such. */
  method UpdateOrderStatus(
    id: IdParam, order: OrderDocument?, status: Option<string>, note: Option<string>, now: int)
    returns (r: Reply<Status>)
    requires order != null ==> !order.isNew && !order.statusModified
    modifies order
    ensures (status.None? || ParseStatus(status.value).None?) ==> r == Fail(400, InvalidStatusMessage, [])
    ensures id.BadId? && status.Some? && ParseStatus(status.value).Some? ==> r == Fail(400, InvalidOrderIdMessage, [])
    ensures id.Id? && order == null && status.Some? && ParseStatus(status.value).Some? ==> r == Fail(404, NotFoundMessage, [])
    ensures order != null && (status.None? || ParseStatus(status.value).None? || id.BadId?) ==> unchanged(order)
    ensures id.Id? && order != null && status.Some? && ParseStatus(status.value).Some? ==>
      var s := ParseStatus(status.value).value;
      var entry := HistoryEntry(s, now, Trim(if Truthy(note) then note.value else DefaultStatusNote(old(order.status), s)));
      && order.status == s
      && order.deliveryInfo == (if s == Delivered then old(order.deliveryInfo).(actualDeliveryTime := Some(now)) else old(order.deliveryInfo))
      && (old(order.ValidationErrors()) == [] ==>
        && r == Ok(200, s)
        && order.statusHistory == old(order.statusHistory) + [entry]
          + (if s != old(order.status) then [HistoryEntry(s, now, UpdatedNote(s))] else []))
      && (old(order.ValidationErrors()) != [] ==> r == Fail(500, ServerErrorMessage, []))
  {
    if status.None? || ParseStatus(status.value).None? {
      return Fail(400, InvalidStatusMessage, []);
    }
    var s := ParseStatus(status.value).value;
    if id.BadId? {
      return Fail(400, InvalidOrderIdMessage, []);
    }
    if order == null {
      return Fail(404, NotFoundMessage, []);
    }
    ApplyStatus(order, s, note, now);
    var errors := order.SaveExisting(now);
    if errors != [] {
      return Fail(500, ServerErrorMessage, []);
    }
    return Ok(200, s);
  }
}
