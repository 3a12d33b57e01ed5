/**
 * The order document: its lines, totals, status fields and the two pre-save
 * hooks — the totals recompute when the lines changed, and the tracking number
 * `ORD-YYMMDD-NNNN` given on the first save.
 */
module OrderModel {
  import opened Common
  import Catalog
  import CartModel

  type OrderId = nat

  datatype OrderStatus = Pending | Processing | Shipped | Delivered | Cancelled | Refunded

  datatype PaymentStatus = PaymentPending | Paid | PaymentFailed | PaymentRefunded

  datatype PaymentMethod = CreditCard | PayPal | BankTransfer | CashOnDelivery

  /** The name a status is stored under. */
  function StatusName(s: OrderStatus): string
  {
    match s
    case Pending => "pending"
    case Processing => "processing"
    case Shipped => "shipped"
    case Delivered => "delivered"
    case Cancelled => "cancelled"
    case Refunded => "refunded"
  }

  /** The schema's enum check on a status string. */
  function ParseStatus(s: string): (r: Option<OrderStatus>)
    ensures r.Some? ==> StatusName(r.value) == s
  {
    if s == "pending" then Some(Pending)
    else if s == "processing" then Some(Processing)
    else if s == "shipped" then Some(Shipped)
    else if s == "delivered" then Some(Delivered)
    else if s == "cancelled" then Some(Cancelled)
    else if s == "refunded" then Some(Refunded)
    else None
  }

  /** Every status is accepted under its own name. */
  lemma ParseStatusName(s: OrderStatus)
    ensures ParseStatus(StatusName(s)) == Some(s)
  {
  }

  /** The name a payment status is stored under. */
  function PaymentStatusName(s: PaymentStatus): string
  {
    match s
    case PaymentPending => "pending"
    case Paid => "paid"
    case PaymentFailed => "failed"
    case PaymentRefunded => "refunded"
  }

  function ParsePaymentStatus(s: string): (r: Option<PaymentStatus>)
    ensures r.Some? ==> PaymentStatusName(r.value) == s
  {
    if s == "pending" then Some(PaymentPending)
    else if s == "paid" then Some(Paid)
    else if s == "failed" then Some(PaymentFailed)
    else if s == "refunded" then Some(PaymentRefunded)
    else None
  }

  function PaymentMethodName(m: PaymentMethod): string
  {
    match m
    case CreditCard => "credit_card"
    case PayPal => "paypal"
    case BankTransfer => "bank_transfer"
    case CashOnDelivery => "cash_on_delivery"
  }

  /** The schema's enum check on the payment method the client sends. */
  function ParsePaymentMethod(s: string): (r: Option<PaymentMethod>)
    ensures r.Some? ==> PaymentMethodName(r.value) == s
  {
    if s == "credit_card" then Some(CreditCard)
    else if s == "paypal" then Some(PayPal)
    else if s == "bank_transfer" then Some(BankTransfer)
    else if s == "cash_on_delivery" then Some(CashOnDelivery)
    else None
  }

  lemma ParsePaymentMethodName(m: PaymentMethod)
    ensures ParsePaymentMethod(PaymentMethodName(m)) == Some(m)
  {
  }

  /** A postal address; a field the client did not send is the empty string. */
  datatype Address = Address(
    firstName: string, lastName: string, street: string, city: string,
    state: string, zipCode: string, country: string, phone: string)

  /** Every address field is trimmed when it is set. */
  function TrimAddress(a: Address): Address
  {
    Address(Trim(a.firstName), Trim(a.lastName), Trim(a.street), Trim(a.city),
            Trim(a.state), Trim(a.zipCode), Trim(a.country), Trim(a.phone))
  }

  /** The shipping address passes `required`: every field is non-empty once trimmed. */
  predicate ShippingAddressValid(a: Address)
  {
    Trim(a.firstName) != "" && Trim(a.lastName) != "" && Trim(a.street) != ""
    && Trim(a.city) != "" && Trim(a.state) != "" && Trim(a.zipCode) != ""
    && Trim(a.country) != "" && Trim(a.phone) != ""
  }

  /** Trimming settles: a trimmed address is left alone, and a valid one stays valid. */
  lemma TrimAddressSettles(a: Address)
    ensures TrimAddress(TrimAddress(a)) == TrimAddress(a)
    ensures ShippingAddressValid(a) <==> ShippingAddressValid(TrimAddress(a))
  {
    TrimTwice(a.firstName); TrimTwice(a.lastName); TrimTwice(a.street); TrimTwice(a.city);
    TrimTwice(a.state); TrimTwice(a.zipCode); TrimTwice(a.country); TrimTwice(a.phone);
  }

  /** One order line: the product, the quantity, the unit price and the line total. */
  datatype OrderLine = OrderLine(product: Catalog.ProductId, quantity: int, price: int, total: int)

  /** The line schema bounds. */
  predicate OrderLineValid(l: OrderLine)
  {
    l.quantity >= 1 && l.price >= 0 && l.total >= 0
  }

  predicate OrderLinesValid(items: seq<OrderLine>)
  {
    forall i :: 0 <= i < |items| ==> OrderLineValid(items[i])
  }

  /** The sum of the line totals (the hook's `reduce`). */
  function LineTotals(items: seq<OrderLine>): int
  {
    if |items| == 0 then 0 else LineTotals(items[..|items| - 1]) + items[|items| - 1].total
  }

  lemma {:induction false} LineTotalsNonNegative(items: seq<OrderLine>)
    requires OrderLinesValid(items)
    ensures LineTotals(items) >= 0
  {
    if |items| > 0 {
      assert OrderLinesValid(items[..|items| - 1]);
      LineTotalsNonNegative(items[..|items| - 1]);
    }
  }

  /** The fields an order keeps that no hook or handler here rewrites. */
  datatype OrderDetails = OrderDetails(
    paymentStatus: PaymentStatus,
    paymentMethod: PaymentMethod,
    shippingAddress: Address,
    billingAddress: Option<Address>,
    notes: string,
    prescriptionRequired: bool,
    prescriptionImage: Option<string>,
    prescriptionApproved: bool)

  datatype Order = Order(
    id: OrderId,
    user: CartModel.UserId,
    items: seq<OrderLine>,
    subtotal: int,
    tax: int,
    shipping: int,
    total: int,
    status: OrderStatus,
    trackingNumber: string,
    details: OrderDetails)

  /** What every stored order satisfies: the schema bounds and a complete shipping address. */
  predicate OrderValid(o: Order)
  {
    OrderLinesValid(o.items) && o.subtotal >= 0 && o.tax >= 0 && o.shipping >= 0 && o.total >= 0
    && ShippingAddressValid(o.details.shippingAddress)
  }

  /**
   * The details of a new order: payment pending, prescription not approved, the
   * addresses trimmed, as the schema defaults and setters give them.
   */
  function NewOrderDetails(payment: PaymentMethod, shipping: Address, billing: Option<Address>,
                           prescriptionRequired: bool, prescriptionImage: Option<string>): (d: OrderDetails)
    ensures d.paymentStatus == PaymentPending && !d.prescriptionApproved
    ensures d.paymentMethod == payment && d.prescriptionRequired == prescriptionRequired
    ensures d.shippingAddress == TrimAddress(shipping) && d.notes == ""
  {
    OrderDetails(PaymentPending, payment, TrimAddress(shipping),
                 match billing case None => None case Some(b) => Some(TrimAddress(b)),
                 "", prescriptionRequired, prescriptionImage, false)
  }

  // ---------------------------------------------------------------- tracking numbers

  /** The clock reading and the `Math.random()` draw a first save uses. */
  datatype Stamp = Stamp(year: nat, month: nat, day: nat, random: real)

  /** A calendar date with a four-digit-or-longer year, and a draw in [0, 1). */
  predicate StampValid(s: Stamp)
  {
    s.year >= 10 && 1 <= s.month <= 12 && 1 <= s.day <= 31 && 0.0 <= s.random < 1.0
  }

  /** `Math.floor(random * 10000)`. */
  function Serial(random: real): (r: nat)
    requires 0.0 <= random < 1.0
    ensures r < 10000
  {
    (random * 10000.0).Floor
  }

  /** `s.slice(-2)`: the last two characters, or all of a shorter string. */
  function LastTwo(s: string): (r: string)
    ensures |s| >= 2 ==> |r| == 2 && s == s[..|s| - 2] + r
    ensures |s| < 2 ==> r == s
  {
    if |s| >= 2 then s[|s| - 2..] else s
  }

  /**
   * The tracking number the hook builds from a stamp. For a calendar date it is
   * "ORD-", the year's last two digits, the two-digit month and day, "-", and the
   * four-digit serial: fifteen characters in all.
   */
  function TrackingNumber(s: Stamp): (t: string)
    requires 0.0 <= s.random < 1.0
    ensures StampValid(s) ==>
              t == "ORD-" + Digits(s.year % 100, 2) + Digits(s.month, 2) + Digits(s.day, 2)
                   + "-" + Digits(Serial(s.random), 4)
    ensures StampValid(s) ==> |t| == 15
  {
    var t := "ORD-" + LastTwo(Dec(s.year)) + PadStart(Dec(s.month), 2, '0') + PadStart(Dec(s.day), 2, '0')
             + "-" + PadStart(Dec(Serial(s.random)), 4, '0');
    if StampValid(s) then
      LastTwoDecDigits(s.year);
      PadDecIsDigits(s.month, 2);
      PadDecIsDigits(s.day, 2);
      PadDecIsDigits(Serial(s.random), 4);
      t
    else t
  }

  /** The parts a tracking number encodes. */
  datatype TrackingParts = TrackingParts(yy: nat, month: nat, day: nat, serial: nat)

  predicate AllDigits(s: string)
  {
    forall i :: 0 <= i < |s| ==> IsDigit(s[i])
  }

  /** Reads back the parts of a well-formed tracking number. */
  function ParseTrackingNumber(t: string): (r: Option<TrackingParts>)
    ensures r.Some? ==> |t| == 15 && t[..4] == "ORD-" && t[10] == '-'
  {
    if |t| == 15 && t[..4] == "ORD-" && t[10] == '-'
       && AllDigits(t[4..6]) && AllDigits(t[6..8]) && AllDigits(t[8..10]) && AllDigits(t[11..]) then
      Some(TrackingParts(DecimalValue(t[4..6]), DecimalValue(t[6..8]), DecimalValue(t[8..10]),
                         DecimalValue(t[11..])))
    else None
  }

  /** Reading a tracking number back gives the year's last two digits, month, day and serial. */
  lemma TrackingNumberRoundTrip(s: Stamp)
    requires StampValid(s)
    ensures ParseTrackingNumber(TrackingNumber(s))
            == Some(TrackingParts(s.year % 100, s.month, s.day, Serial(s.random)))
  {
    var yy, mm, dd, nn := Digits(s.year % 100, 2), Digits(s.month, 2), Digits(s.day, 2),
                          Digits(Serial(s.random), 4);
    ParseAssembled(yy, mm, dd, nn);
    DigitsValue(s.year % 100, 2);
    assert s.month < Pow10(2) && s.day < Pow10(2);
    DigitsValue(s.month, 2);
    DigitsValue(s.day, 2);
    assert Serial(s.random) < Pow10(4);
    DigitsValue(Serial(s.random), 4);
  }

  /** A string assembled from digit fields of the right widths parses back into those fields' values. */
  lemma ParseAssembled(yy: string, mm: string, dd: string, nn: string)
    requires |yy| == 2 && |mm| == 2 && |dd| == 2 && |nn| == 4
    requires AllDigits(yy) && AllDigits(mm) && AllDigits(dd) && AllDigits(nn)
    ensures ParseTrackingNumber("ORD-" + yy + mm + dd + "-" + nn)
            == Some(TrackingParts(DecimalValue(yy), DecimalValue(mm), DecimalValue(dd), DecimalValue(nn)))
  {
    var date := yy + mm + dd;
    assert date[..2] == yy && date[2..4] == mm && date[4..] == dd;
    var head := "ORD-" + date;
    assert head[..4] == "ORD-" && head[4..] == date;
    var t := head + "-" + nn;
    assert "ORD-" + yy + mm + dd + "-" + nn == t;
    assert |t| == 15 && t[..10] == head && t[10] == '-' && t[11..] == nn;
    assert t[..4] == head[..4];
    assert t[4..6] == date[..2] && t[6..8] == date[2..4] && t[8..10] == date[4..];
  }

  // ---------------------------------------------------------------- the document

  /** An order document being saved. */
  class OrderDocument {
    const id: OrderId
    const user: CartModel.UserId
    var items: seq<OrderLine>
    var subtotal: int
    const tax: int
    const shipping: int
    var total: int
    var status: OrderStatus
    var trackingNumber: string
    const details: OrderDetails

    /** The document as it would be stored. */
    function Value(): Order
      reads this
    {
      Order(id, user, items, subtotal, tax, shipping, total, status, trackingNumber, details)
    }

    constructor Load(o: Order)
      ensures Value() == o
    {
      id, user, items, subtotal, tax, shipping := o.id, o.user, o.items, o.subtotal, o.tax, o.shipping;
      total, status, trackingNumber, details := o.total, o.status, o.trackingNumber, o.details;
    }

    /** `new Order({...})`: status takes its default, pending, and there is no tracking number yet. */
    constructor New(id: OrderId, user: CartModel.UserId, items: seq<OrderLine>, subtotal: int,
                    tax: int, shipping: int, total: int, details: OrderDetails)
      ensures Value() == Order(id, user, items, subtotal, tax, shipping, total, Pending, "", details)
    {
      this.id, this.user, this.items, this.subtotal := id, user, items, subtotal;
      this.tax, this.shipping, this.total, this.details := tax, shipping, total, details;
      status, trackingNumber := Pending, "";
    }

    /**
     * The two pre-save hooks. When the lines changed, subtotal becomes the sum of
     * the line totals and total adds tax and shipping; on the first save the
     * tracking number is built from the stamp.
     */
    method PreSave(isNew: bool, itemsModified: bool, stamp: Stamp)
      requires isNew ==> 0.0 <= stamp.random < 1.0
      modifies this
      ensures items == old(items) && status == old(status)
      ensures itemsModified ==> subtotal == LineTotals(items) && total == subtotal + tax + shipping
      ensures !itemsModified ==> subtotal == old(subtotal) && total == old(total)
      ensures isNew ==> trackingNumber == TrackingNumber(stamp)
      ensures !isNew ==> trackingNumber == old(trackingNumber)
    {
      if itemsModified {
        subtotal := LineTotals(items);
        total := subtotal + tax + shipping;
      }
      if isNew {
        trackingNumber := TrackingNumber(stamp);
      }
    }
  }
}
