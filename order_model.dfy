/** The order document: its enumerations, the `CK-YYYYMMDD-NNNN` order
    number, the schema's validation, the two `pre('save')` hooks and the
    instance methods `updateStatus` and `calculateTotal`. Money is held in
    integer cents. */
module OrderModel {
  import opened Common
  import opened Text

  datatype Status = Pending | Confirmed | Preparing | Ready | OutForDelivery | Delivered | Cancelled

  function StatusName(s: Status): string {
    match s
    case Pending => "pending"
    case Confirmed => "confirmed"
    case Preparing => "preparing"
    case Ready => "ready"
    case OutForDelivery => "out-for-delivery"
    case Delivered => "delivered"
    case Cancelled => "cancelled"
  }

  /** Membership in the schema's `enum` of seven status strings. */
  function ParseStatus(name: string): (r: Option<Status>)
    ensures r.Some? ==> StatusName(r.value) == name
    ensures r.None? ==> forall s: Status :: StatusName(s) != name
  {
    if name == "pending" then Some(Pending)
    else if name == "confirmed" then Some(Confirmed)
    else if name == "preparing" then Some(Preparing)
    else if name == "ready" then Some(Ready)
    else if name == "out-for-delivery" then Some(OutForDelivery)
    else if name == "delivered" then Some(Delivered)
    else if name == "cancelled" then Some(Cancelled)
    else None
  }

  lemma ParseStatusName(s: Status)
    ensures ParseStatus(StatusName(s)) == Some(s)
  {
  }

  datatype PaymentStatus = PaymentPending | Processing | Completed | Failed | Refunded

  const OrderTypes: seq<string> := ["delivery", "pickup", "dine-in"]

  datatype HistoryEntry = HistoryEntry(status: Status, timestamp: int, note: string)

  datatype LineItem = LineItem(
    productId: nat,
    name: string,
    price: int,
    quantity: int,
    subtotal: int,
    notes: string)

  datatype Address = Address(street: Option<string>, city: Option<string>, zipCode: Option<string>)

  datatype DeliveryInfo = DeliveryInfo(
    address: Option<Address>,
    instructions: string,
    estimatedDeliveryTime: Option<int>,
    actualDeliveryTime: Option<int>)

  const NoDeliveryInfo := DeliveryInfo(None, "", None, None)

  datatype ContactInfo = ContactInfo(phone: string, email: string)

  /** The `trim` setter of the delivery instructions. */
  function TrimInstructions(d: DeliveryInfo): DeliveryInfo {
    d.(instructions := Trim(d.instructions))
  }

  /** The `trim` setter of the contact phone, and `trim` then `lowercase`
      of the contact email. */
  function NormalContact(c: ContactInfo): ContactInfo {
    ContactInfo(Trim(c.phone), ToLower(Trim(c.email)))
  }

  /** The fields of a stored order that the listings sort on and the admin
      aggregates read. */
  datatype OrderRecord = OrderRecord(
    userId: nat,
    orderNumber: Option<string>,
    createdAt: int,
    subtotal: int,
    tax: int,
    deliveryFee: int,
    totalAmount: int,
    status: Status,
    orderType: string,
    items: seq<LineItem>)

  // ---------------------------------------------------------------------
  // Order number

  /** The calendar day on which the number is generated (`getFullYear`,
      `getMonth() + 1`, `getDate()`). */
  datatype CalendarDate = CalendarDate(year: nat, month: nat, day: nat)

  predicate FourDigitDate(d: CalendarDate) {
    1000 <= d.year <= 9999 && 1 <= d.month <= 12 && 1 <= d.day <= 31
  }

  function Pad2(n: nat): string {
    PadStart(NatToString(n), 2, '0')
  }

  function DateString(d: CalendarDate): string {
    NatToString(d.year) + Pad2(d.month) + Pad2(d.day)
  }

  function SequenceString(todayCount: nat): string {
    PadStart(NatToString(todayCount + 1), 4, '0')
  }

  /** `CK-${dateStr}-${(todayCount + 1).toString().padStart(4, '0')}`. */
  function OrderNumber(d: CalendarDate, todayCount: nat): string {
    "CK-" + DateString(d) + ("-" + SequenceString(todayCount))
  }

  /** Reads the date and the sequence number back out of an order number. */
  function ParseOrderNumber(s: string): Option<(CalendarDate, nat)> {
    if |s| >= 13 && s[..3] == "CK-" && AllDigits(s[3..7]) && AllDigits(s[7..9]) && AllDigits(s[9..11])
       && s[11] == '-' && AllDigits(s[12..]) then
      Some((CalendarDate(DigitsValue(s[3..7]), DigitsValue(s[7..9]), DigitsValue(s[9..11])), DigitsValue(s[12..])))
    else
      None
  }

  lemma {:induction false} PaddedValue(n: nat, width: nat)
    ensures AllDigits(PadStart(NatToString(n), width, '0'))
    ensures DigitsValue(PadStart(NatToString(n), width, '0')) == n
  {
    var t := NatToString(n);
    NatToStringRoundTrip(n);
    if |t| < width {
      assert PadStart(t, width, '0') == Repeat('0', width - |t|) + t;
      LeadingZerosValue(width - |t|, t);
    }
  }

  lemma Pow10Values()
    ensures Pow10(1) == 10 && Pow10(2) == 100 && Pow10(3) == 1000 && Pow10(4) == 10000
  {
    assert Pow10(1) == 10 * Pow10(0);
    assert Pow10(2) == 10 * Pow10(1);
    assert Pow10(3) == 10 * Pow10(2);
    assert Pow10(4) == 10 * Pow10(3);
  }

  /** Slicing a concatenation at the seam gives the parts back. */
  lemma {:induction false} Pad2Length(n: nat)
    requires 1 <= n <= 99
    ensures |Pad2(n)| == 2
  {
    Pow10Values();
    if n < 10 { NatToStringLength(n, 1); } else { NatToStringLength(n, 2); }
  }

  /** With a four-digit year and fewer than 9999 orders today the number has
      exactly 16 characters. */
  lemma {:induction false} OrderNumberLength(d: CalendarDate, todayCount: nat)
    requires FourDigitDate(d) && todayCount < 9999
    ensures |OrderNumber(d, todayCount)| == 16
  {
    Pow10Values();
    NatToStringLength(d.year, 4);
    Pad2Length(d.month);
    Pad2Length(d.day);
    var n := todayCount + 1;
    if n < 10 { NatToStringLength(n, 1); }
    else if n < 100 { NatToStringLength(n, 2); }
    else if n < 1000 { NatToStringLength(n, 3); }
    else { NatToStringLength(n, 4); }
  }

  /** `padStart` never truncates: from the 10000th order of a day on, the
      suffix is the whole decimal sequence number, longer than four digits. */
  lemma {:induction false} LongSequenceNotTruncated(todayCount: nat)
    requires todayCount >= 9999
    ensures SequenceString(todayCount) == NatToString(todayCount + 1)
    ensures |SequenceString(todayCount)| > 4
  {
    var n := todayCount + 1;
    Pow10Values();
    var k: nat := 5;
    while Pow10(k) <= n
      invariant k >= 5 && Pow10(k - 1) <= n
      decreases n - Pow10(k - 1)
    {
      k := k + 1;
    }
    NatToStringLength(n, k);
  }

  /** Parsing an abstract `CK-<y><m><d>-<q>` string. */
  lemma ParseParts(s: string, y: string, m: string, dd: string, q: string)
    requires |y| == 4 && |m| == 2 && |dd| == 2 && |q| >= 1
    requires AllDigits(y) && AllDigits(m) && AllDigits(dd) && AllDigits(q)
    requires s == "CK-" + (y + m + dd) + ("-" + q)
    ensures ParseOrderNumber(s)
         == Some((CalendarDate(DigitsValue(y), DigitsValue(m), DigitsValue(dd)), DigitsValue(q)))
  {
    PartsSlices(s, y, m, dd, q);
  }

  lemma PartsSlices(s: string, y: string, m: string, dd: string, q: string)
    requires |y| == 4 && |m| == 2 && |dd| == 2 && |q| >= 1
    requires s == "CK-" + (y + m + dd) + ("-" + q)
    ensures s[..3] == "CK-" && s[3..7] == y && s[7..9] == m && s[9..11] == dd && s[11] == '-' && s[12..] == q
  {
    var date := y + m + dd;
    var r := "-" + q;
    assert s[..3] == "CK-";
    assert s[3..11] == date;
    assert s[11..] == r;
    assert date[..4] == y;
    assert date[4..6] == m;
    assert date[6..] == dd;
  }

  lemma {:induction false} OrderNumberRoundTrip(d: CalendarDate, todayCount: nat)
    requires FourDigitDate(d)
    ensures ParseOrderNumber(OrderNumber(d, todayCount)) == Some((d, todayCount + 1))
  {
    Pow10Values();
    NatToStringLength(d.year, 4);
    Pad2Length(d.month);
    Pad2Length(d.day);
    NatToStringRoundTrip(d.year);
    PaddedValue(d.month, 2);
    PaddedValue(d.day, 2);
    PaddedValue(todayCount + 1, 4);
    ParseParts(OrderNumber(d, todayCount), NatToString(d.year), Pad2(d.month), Pad2(d.day), SequenceString(todayCount));
  }

  /** Orders numbered on the same day by sequential saves never share a number,
      and a later count gives a larger sequence number. */
  lemma OrderNumbersIncrease(d: CalendarDate, c1: nat, c2: nat)
    requires FourDigitDate(d) && c1 < c2
    ensures OrderNumber(d, c1) != OrderNumber(d, c2)
    ensures var p1, p2 := ParseOrderNumber(OrderNumber(d, c1)), ParseOrderNumber(OrderNumber(d, c2));
      p1.Some? && p2.Some? && p1.value.1 < p2.value.1
  {
    OrderNumberRoundTrip(d, c1);
    OrderNumberRoundTrip(d, c2);
  }

  // ---------------------------------------------------------------------
  // The pre-save hooks on the status history

  const CreatedNote := "Ordine creato"

  function UpdatedNote(s: Status): string {
    "Stato aggiornato a: " + StatusName(s)
  }

  /** The history after both hooks. The first hook pushes the creation entry
      only while it generates the number (new document, no number yet) and
      the history is empty; the second pushes an update entry for a
      non-new document whose status was modified. */
  function HooksHistory(
    history: seq<HistoryEntry>, status: Status, isNew: bool, hasNumber: bool,
    statusModified: bool, now: int): seq<HistoryEntry>
  {
    var created := if isNew && !hasNumber && |history| == 0 then [HistoryEntry(status, now, CreatedNote)] else [];
    var updated := if statusModified && !isNew then [HistoryEntry(status, now, UpdatedNote(status))] else [];
    history + created + updated
  }

  /** The hooks only append, and at most one entry per save. */
  lemma HooksAppendOnly(
    history: seq<HistoryEntry>, status: Status, isNew: bool, hasNumber: bool,
    statusModified: bool, now: int)
    ensures var h := HooksHistory(history, status, isNew, hasNumber, statusModified, now);
      && h[..|history|] == history
      && |history| <= |h| <= |history| + 1
      && (|h| == |history| + 1 <==> (isNew && !hasNumber && |history| == 0) || (statusModified && !isNew))
  {
  }

  /** The first save of a new order without a number starts the history with
      exactly the creation entry. */
  lemma FirstSaveHistory(status: Status, statusModified: bool, now: int)
    ensures HooksHistory([], status, true, false, statusModified, now) == [HistoryEntry(status, now, CreatedNote)]
  {
  }

  /** A non-new order whose status changed gains exactly the update entry. */
  lemma StatusChangeHistory(history: seq<HistoryEntry>, status: Status, hasNumber: bool, now: int)
    ensures HooksHistory(history, status, false, hasNumber, true, now)
         == history + [HistoryEntry(status, now, UpdatedNote(status))]
    ensures HooksHistory(history, status, false, hasNumber, false, now) == history
  {
  }

  // ---------------------------------------------------------------------
  // Schema validation

  function SumSubtotals(items: seq<LineItem>): int {
    if items == [] then 0 else SumSubtotals(items[..|items| - 1]) + items[|items| - 1].subtotal
  }

  /** A violated schema constraint of an order, one per path. */
  datatype OrderViolation =
    | QuantityBelowOne | ItemNotesTooLong
    | NegativeSubtotal | NegativeTax | NegativeDeliveryFee | NegativeTotal
    | OrderTypeRequired | UnknownOrderType(value: string)
    | StreetRequired | CityRequired | ZipCodeRequired
    | InstructionsTooLong | PhoneRequired | EmailRequired | NotesTooLong

  /** The message Mongoose reports for a violation: the schema's custom
      message, or the default one for `required`, `min` and `enum`. */
  function OrderViolationMessage(v: OrderViolation): string {
    match v
    case QuantityBelowOne => "La quantità deve essere almeno 1"
    case ItemNotesTooLong => "Le note non possono superare i 200 caratteri"
    case NegativeSubtotal => "Path `subtotal` is less than minimum allowed value (0)."
    case NegativeTax => "Path `tax` is less than minimum allowed value (0)."
    case NegativeDeliveryFee => "Path `deliveryFee` is less than minimum allowed value (0)."
    case NegativeTotal => "Path `totalAmount` is less than minimum allowed value (0)."
    case OrderTypeRequired => "Path `orderType` is required."
    case UnknownOrderType(value) => "`" + value + "` is not a valid enum value for path `orderType`."
    case StreetRequired => "Path `deliveryInfo.address.street` is required."
    case CityRequired => "Path `deliveryInfo.address.city` is required."
    case ZipCodeRequired => "Path `deliveryInfo.address.zipCode` is required."
    case InstructionsTooLong => "Le istruzioni non possono superare i 300 caratteri"
    case PhoneRequired => "Path `contactInfo.phone` is required."
    case EmailRequired => "Path `contactInfo.email` is required."
    case NotesTooLong => "Le note non possono superare i 500 caratteri"
  }

  /** The `errors` list of a validation reply: one message per violation. */
  function OrderMessages(vs: seq<OrderViolation>): (r: seq<string>)
    ensures |r| == |vs| && forall i :: 0 <= i < |vs| ==> r[i] == OrderViolationMessage(vs[i])
  {
    seq(|vs|, i requires 0 <= i < |vs| => OrderViolationMessage(vs[i]))
  }

  /** Per line item: quantity at least 1 and notes of at most 200 UTF-16
      code units. */
  function ItemChecks(items: seq<LineItem>): (r: seq<Check<OrderViolation>>)
    ensures |r| == 2 * |items|
    ensures forall i :: 0 <= i < |items| ==>
      r[2 * i] == Check(items[i].quantity >= 1, QuantityBelowOne)
      && r[2 * i + 1] == Check(Utf16Length(items[i].notes) <= 200, ItemNotesTooLong)
  {
    if items == [] then []
    else
      [Check(items[0].quantity >= 1, QuantityBelowOne),
       Check(Utf16Length(items[0].notes) <= 200, ItemNotesTooLong)]
      + ItemChecks(items[1..])
  }

  predicate Present(s: Option<string>) {
    s.Some? && s.value != ""
  }

  /** The conditional `required` validators of a delivery address. */
  function AddressChecks(a: Option<Address>): seq<Check<OrderViolation>> {
    [Check(a.Some? && Present(a.value.street), StreetRequired),
     Check(a.Some? && Present(a.value.city), CityRequired),
     Check(a.Some? && Present(a.value.zipCode), ZipCodeRequired)]
  }

  predicate FullAddress(a: Option<Address>) {
    a.Some? && Present(a.value.street) && Present(a.value.city) && Present(a.value.zipCode)
  }

  /** `required` runs before `enum` on a path, and the first failure is the
      one reported: an empty order type is missing, not unknown. */
  function OrderTypeCheck(orderType: string): (c: Check<OrderViolation>)
    ensures c.holds <==> orderType in OrderTypes
    ensures !c.holds ==> c.message == if orderType == "" then OrderTypeRequired else UnknownOrderType(orderType)
  {
    if orderType == "" then Check(false, OrderTypeRequired)
    else Check(orderType in OrderTypes, UnknownOrderType(orderType))
  }

  /** The order-level constraints after the line items, in schema order. */
  function FieldChecks(
    subtotal: int, tax: int, deliveryFee: int, totalAmount: int,
    orderType: string, address: Option<Address>, instructions: string, contactInfo: ContactInfo, notes: string): seq<Check<OrderViolation>>
  {
    [Check(subtotal >= 0, NegativeSubtotal),
     Check(tax >= 0, NegativeTax),
     Check(deliveryFee >= 0, NegativeDeliveryFee),
     Check(totalAmount >= 0, NegativeTotal),
     OrderTypeCheck(orderType)]
    + (if orderType == "delivery" then AddressChecks(address) else [])
    + [Check(Utf16Length(instructions) <= 300, InstructionsTooLong),
       Check(contactInfo.phone != "", PhoneRequired),
       Check(contactInfo.email != "", EmailRequired),
       Check(Utf16Length(notes) <= 500, NotesTooLong)]
  }

  /** The messages of every schema constraint the order violates, in field order. */
  function OrderErrors(
    items: seq<LineItem>, subtotal: int, tax: int, deliveryFee: int, totalAmount: int,
    orderType: string, deliveryInfo: DeliveryInfo, contactInfo: ContactInfo, notes: string): seq<OrderViolation>
  {
    Failures(ItemChecks(items)
      + FieldChecks(subtotal, tax, deliveryFee, totalAmount, orderType, deliveryInfo.address, deliveryInfo.instructions, contactInfo, notes))
  }

  lemma {:induction false} ItemChecksHold(items: seq<LineItem>)
    ensures AllHold(ItemChecks(items)) <==>
      forall i :: 0 <= i < |items| ==> items[i].quantity >= 1 && Utf16Length(items[i].notes) <= 200
    decreases |items|
  {
    if items != [] {
      var head := [Check(items[0].quantity >= 1, QuantityBelowOne),
        Check(Utf16Length(items[0].notes) <= 200, ItemNotesTooLong)];
      assert ItemChecks(items) == head + ItemChecks(items[1..]);
      AllHoldAppend(head, ItemChecks(items[1..]));
      ItemChecksHold(items[1..]);
      assert AllHold(head) <==> head[0].holds && head[1].holds;
      assert forall i :: 1 <= i < |items| ==> items[i] == items[1..][i - 1];
    }
  }

  lemma FieldChecksHold(
    subtotal: int, tax: int, deliveryFee: int, totalAmount: int,
    orderType: string, address: Option<Address>, instructions: string, contactInfo: ContactInfo, notes: string)
    ensures AllHold(FieldChecks(subtotal, tax, deliveryFee, totalAmount, orderType, address, instructions, contactInfo, notes)) <==>
      && subtotal >= 0 && tax >= 0 && deliveryFee >= 0 && totalAmount >= 0
      && orderType in OrderTypes
      && (orderType == "delivery" ==> FullAddress(address))
      && Utf16Length(instructions) <= 300
      && contactInfo.phone != "" && contactInfo.email != ""
      && Utf16Length(notes) <= 500
  {
    var head := [Check(subtotal >= 0, NegativeSubtotal),
     Check(tax >= 0, NegativeTax),
     Check(deliveryFee >= 0, NegativeDeliveryFee),
     Check(totalAmount >= 0, NegativeTotal),
     OrderTypeCheck(orderType)];
    var mid := if orderType == "delivery" then AddressChecks(address) else [];
    var tail := [Check(Utf16Length(instructions) <= 300, InstructionsTooLong),
       Check(contactInfo.phone != "", PhoneRequired),
       Check(contactInfo.email != "", EmailRequired),
       Check(Utf16Length(notes) <= 500, NotesTooLong)];
    AllHoldAppend(head, mid);
    AllHoldAppend(head + mid, tail);
    assert AllHold(head) <==> head[0].holds && head[1].holds && head[2].holds && head[3].holds && head[4].holds;
    assert AllHold(tail) <==> tail[0].holds && tail[1].holds && tail[2].holds && tail[3].holds;
    if orderType == "delivery" {
      assert AllHold(mid) <==> mid[0].holds && mid[1].holds && mid[2].holds;
    }
  }

  /** An order passes validation exactly when every schema constraint holds:
      quantities at least 1, non-negative amounts, a known order type, a full
      address for deliveries, and contact phone and email present. */
  lemma OrderErrorsEmpty(
    items: seq<LineItem>, subtotal: int, tax: int, deliveryFee: int, totalAmount: int,
    orderType: string, deliveryInfo: DeliveryInfo, contactInfo: ContactInfo, notes: string)
    ensures OrderErrors(items, subtotal, tax, deliveryFee, totalAmount, orderType, deliveryInfo, contactInfo, notes) == [] <==>
      && (forall i :: 0 <= i < |items| ==> items[i].quantity >= 1 && Utf16Length(items[i].notes) <= 200)
      && subtotal >= 0 && tax >= 0 && deliveryFee >= 0 && totalAmount >= 0
      && orderType in OrderTypes
      && (orderType == "delivery" ==> FullAddress(deliveryInfo.address))
      && Utf16Length(deliveryInfo.instructions) <= 300
      && contactInfo.phone != "" && contactInfo.email != ""
      && Utf16Length(notes) <= 500
  {
    var ic := ItemChecks(items);
    var fc := FieldChecks(subtotal, tax, deliveryFee, totalAmount, orderType, deliveryInfo.address, deliveryInfo.instructions, contactInfo, notes);
    FailuresEmpty(ic + fc);
    AllHoldAppend(ic, fc);
    ItemChecksHold(items);
    FieldChecksHold(subtotal, tax, deliveryFee, totalAmount, orderType, deliveryInfo.address, deliveryInfo.instructions, contactInfo, notes);
  }

  // ---------------------------------------------------------------------
  // The document

  class OrderDocument {
    const userId: nat
    var orderNumber: Option<string>
    var items: seq<LineItem>
    var subtotal: int
    var tax: int
    var deliveryFee: int
    var totalAmount: int
    var status: Status
    var paymentStatus: PaymentStatus
    var orderType: string
    var deliveryInfo: DeliveryInfo
    var contactInfo: ContactInfo
    var notes: string
    var requestedTime: Option<int>
    var statusHistory: seq<HistoryEntry>
    var createdAt: int
    /** Mongoose's `isNew`: not yet saved. */
    var isNew: bool
    /** Mongoose's `isModified('status')` since the last save. */
    var statusModified: bool

    /** `new Order({...})`: the schema's `trim` and `lowercase` setters run on
        assignment; the history starts empty. */
    constructor(
      userId: nat, items: seq<LineItem>, subtotal: int, tax: int, deliveryFee: int, totalAmount: int,
      orderType: string, deliveryInfo: DeliveryInfo, contactInfo: ContactInfo, notes: string,
      requestedTime: Option<int>, status: Status)
      ensures this.userId == userId && this.items == TrimItemNotes(items)
      ensures this.subtotal == subtotal && this.tax == tax && this.deliveryFee == deliveryFee
      ensures this.totalAmount == totalAmount && this.orderType == orderType
      ensures this.deliveryInfo == TrimInstructions(deliveryInfo)
      ensures this.contactInfo == NormalContact(contactInfo)
      ensures this.notes == Trim(notes) && this.requestedTime == requestedTime
      ensures this.status == status && this.paymentStatus == PaymentPending
      ensures this.orderNumber == None && this.statusHistory == []
      ensures this.isNew && !this.statusModified
    {
      this.userId := userId;
      this.items := TrimItemNotes(items);
      this.subtotal := subtotal;
      this.tax := tax;
      this.deliveryFee := deliveryFee;
      this.totalAmount := totalAmount;
      this.orderType := orderType;
      this.deliveryInfo := TrimInstructions(deliveryInfo);
      this.contactInfo := NormalContact(contactInfo);
      this.notes := Trim(notes);
      this.requestedTime := requestedTime;
      this.status := status;
      this.paymentStatus := PaymentPending;
      this.orderNumber := None;
      this.statusHistory := [];
      this.createdAt := 0;
      this.isNew := true;
      this.statusModified := false;
    }

    function ValidationErrors(): seq<OrderViolation>
      reads this`items, this`subtotal, this`tax, this`deliveryFee, this`totalAmount
      reads this`orderType, this`deliveryInfo, this`contactInfo, this`notes
    {
      OrderErrors(items, subtotal, tax, deliveryFee, totalAmount, orderType, deliveryInfo, contactInfo, notes)
    }

    function Record(): OrderRecord
      reads this
    {
      OrderRecord(userId, orderNumber, createdAt, subtotal, tax, deliveryFee, totalAmount, status, orderType, items)
    }

    /** `order.status = s`: an assignment of the current value does not mark
        the path modified. */
    method SetStatus(s: Status)
      modifies this`status, this`statusModified
      ensures status == s
      ensures statusModified == (old(statusModified) || s != old(status))
      ensures ValidationErrors() == old(ValidationErrors())
    {
      if s != status {
        statusModified := true;
      }
      status := s;
    }

    method PushHistory(e: HistoryEntry)
      modifies this`statusHistory
      ensures statusHistory == old(statusHistory) + [e]
      ensures ValidationErrors() == old(ValidationErrors())
    {
      statusHistory := statusHistory + [e];
    }

    /** `order.deliveryInfo.actualDeliveryTime = t`; the nested path exists
        on every order, delivery or not. */
    method SetActualDeliveryTime(t: int)
      modifies this`deliveryInfo
      ensures deliveryInfo == old(deliveryInfo).(actualDeliveryTime := Some(t))
      ensures ValidationErrors() == old(ValidationErrors())
    {
      deliveryInfo := deliveryInfo.(actualDeliveryTime := Some(t));
    }

    /** `save()`: validation first (nothing changes when it fails), then the
        number hook, then the history hook; afterwards the document is
        persisted, so it is no longer new and no path is modified. */
    method Save(today: CalendarDate, todayCount: nat, now: int) returns (errors: seq<OrderViolation>)
      modifies this
      ensures errors == old(ValidationErrors())
      ensures errors != [] ==> unchanged(this)
      ensures errors == [] ==>
        orderNumber == (if old(isNew) && old(orderNumber).None? then Some(OrderNumber(today, todayCount)) else old(orderNumber))
      ensures errors == [] ==>
        statusHistory == HooksHistory(old(statusHistory), old(status), old(isNew), old(orderNumber).Some?, old(statusModified), now)
      ensures errors == [] ==> createdAt == (if old(isNew) then now else old(createdAt))
      ensures errors == [] ==> !isNew && !statusModified
      ensures unchanged(this`items, this`subtotal, this`tax, this`deliveryFee, this`totalAmount, this`status)
      ensures unchanged(this`paymentStatus, this`orderType, this`deliveryInfo, this`contactInfo, this`notes, this`requestedTime)
    {
      errors := ValidationErrors();
      if errors != [] {
        return;
      }
      RunHooks(OrderNumber(today, todayCount), now);
    }

    /** `save()` of a document loaded from the collection: the number hook
        does nothing, so only the status-change entry can be added. */
    method SaveExisting(now: int) returns (errors: seq<OrderViolation>)
      requires !isNew
      modifies this
      ensures errors == old(ValidationErrors())
      ensures errors != [] ==> unchanged(this)
      ensures errors == [] ==>
        && statusHistory == old(statusHistory)
          + (if old(statusModified) then [HistoryEntry(old(status), now, UpdatedNote(old(status)))] else [])
        && !statusModified
      ensures unchanged(this`items, this`subtotal, this`tax, this`deliveryFee, this`totalAmount, this`status)
      ensures unchanged(this`paymentStatus, this`orderType, this`deliveryInfo, this`contactInfo, this`notes, this`requestedTime)
      ensures unchanged(this`orderNumber, this`createdAt, this`isNew)
    {
      errors := Save(CalendarDate(1970, 1, 1), 0, now);
    }

    /** The two hooks and the write, once validation has passed; `generated`
        is the number the first hook builds from the day's count. */
    method RunHooks(generated: string, now: int)
      modifies this
      ensures orderNumber == (if old(isNew) && old(orderNumber).None? then Some(generated) else old(orderNumber))
      ensures statusHistory == HooksHistory(old(statusHistory), old(status), old(isNew), old(orderNumber).Some?, old(statusModified), now)
      ensures createdAt == (if old(isNew) then now else old(createdAt))
      ensures !isNew && !statusModified
      ensures unchanged(this`items, this`subtotal, this`tax, this`deliveryFee, this`totalAmount, this`status)
      ensures unchanged(this`paymentStatus, this`orderType, this`deliveryInfo, this`contactInfo, this`notes, this`requestedTime)
    {
      // first hook: number generation and the creation entry
      var number := orderNumber;
      var created: seq<HistoryEntry> := [];
      if isNew && orderNumber.None? {
        number := Some(generated);
        if |statusHistory| == 0 {
          created := [HistoryEntry(status, now, CreatedNote)];
        }
      }
      // second hook: the status-change entry
      var updated: seq<HistoryEntry> := [];
      if statusModified && !isNew {
        updated := [HistoryEntry(status, now, UpdatedNote(status))];
      }
      // the write
      orderNumber, statusHistory := number, statusHistory + created + updated;
      createdAt := if isNew then now else createdAt;
      isNew, statusModified := false, false;
    }

    /** `updateStatus(newStatus, note)`: its own entry, then `save()`, whose
        hook adds a second entry when the status really changed. A failed
        save leaves the in-memory assignment and push in place. */
    method UpdateStatus(newStatus: Status, note: string, today: CalendarDate, todayCount: nat, now: int)
      returns (errors: seq<OrderViolation>)
      modifies this
      ensures errors == old(ValidationErrors())
      ensures status == newStatus
      ensures errors != [] ==> statusHistory == old(statusHistory) + [HistoryEntry(newStatus, now, Trim(note))]
      ensures errors != [] ==> isNew == old(isNew) && orderNumber == old(orderNumber)
      ensures errors == [] ==> !isNew && !statusModified
      ensures errors == [] && !old(isNew) ==>
        statusHistory == old(statusHistory) + [HistoryEntry(newStatus, now, Trim(note))]
          + (if old(statusModified) || newStatus != old(status) then [HistoryEntry(newStatus, now, UpdatedNote(newStatus))] else [])
      ensures errors == [] && old(isNew) ==>
        statusHistory == old(statusHistory) + [HistoryEntry(newStatus, now, Trim(note))]
      ensures errors == [] ==>
        orderNumber == (if old(isNew) && old(orderNumber).None? then Some(OrderNumber(today, todayCount)) else old(orderNumber))
      ensures errors == [] ==> createdAt == (if old(isNew) then now else old(createdAt))
      ensures errors != [] ==>
        createdAt == old(createdAt) && statusModified == (old(statusModified) || newStatus != old(status))
      ensures unchanged(this`items, this`subtotal, this`tax, this`deliveryFee, this`totalAmount)
      ensures unchanged(this`paymentStatus, this`orderType, this`deliveryInfo, this`contactInfo, this`notes, this`requestedTime)
    {
      SetStatus(newStatus);
      PushHistory(HistoryEntry(newStatus, now, Trim(note)));
      errors := Save(today, todayCount, now);
    }

    /** `calculateTotal()`: the subtotal is the sum of the line subtotals and
        the total adds tax and delivery fee, with no rounding. */
    method CalculateTotal() returns (total: int)
      modifies this`subtotal, this`totalAmount
      ensures subtotal == SumSubtotals(items)
      ensures totalAmount == subtotal + tax + deliveryFee && total == totalAmount
    {
      var sum := 0;
      var i := 0;
      while i < |items|
        invariant 0 <= i <= |items|
        invariant sum == SumSubtotals(items[..i])
      {
        assert items[..i + 1][..i] == items[..i];
        sum := sum + items[i].subtotal;
        i := i + 1;
      }
      assert items[..|items|] == items;
      subtotal := sum;
      totalAmount := subtotal + tax + deliveryFee;
      total := totalAmount;
    }
  }

  function TrimItemNotes(items: seq<LineItem>): (r: seq<LineItem>)
    ensures |r| == |items|
    ensures forall i :: 0 <= i < |items| ==> r[i] == items[i].(notes := Trim(items[i].notes))
  {
    if items == [] then [] else [items[0].(notes := Trim(items[0].notes))] + TrimItemNotes(items[1..])
  }
}
