/** The `PurchaseOrder` record of vendors/models.py: its date-ordering check
    (`clean`) and the purchase-order number that `save` generates when none
    was given. Timestamps are whole seconds; the clock and the random UUID are
    parameters. */
module PurchaseOrders {
  import opened Wrappers

  const SecondsPerDay: int := 86400

  /** One purchase order. `id` is its primary key; `orderDate`, `deliveryDate`,
      `issueDate` and `ackDate` are timestamps in seconds. */
  datatype PurchaseOrder = PurchaseOrder(
    id: nat,
    poNumber: string,
    orderDate: int,
    deliveryDate: int,
    status: string,
    qualityRating: Option<real>,
    issueDate: int,
    ackDate: Option<int>)

  /** `PurchaseOrder.clean`: the delivery date may not precede the order date. */
  function Clean(po: PurchaseOrder): (o: Outcome)
    ensures o == Pass <==> po.orderDate <= po.deliveryDate
    ensures o.Fail? ==> o.error.field == "delivery_date"
  {
    if po.orderDate > po.deliveryDate then
      Fail(ValidationError("delivery_date", "Delivery date must be after order date."))
    else
      Pass
  }

  /** A calendar date as `now()` reports it. */
  datatype Date = Date(year: int, month: int, day: int)

  predicate IsCalendarDate(d: Date)
  {
    1 <= d.year <= 9999 && 1 <= d.month <= 12 && 1 <= d.day <= 31
  }

  predicate IsDigit(c: char)
  {
    '0' <= c <= '9'
  }

  predicate IsLowerHex(c: char)
  {
    IsDigit(c) || 'a' <= c <= 'f'
  }

  function DigitValue(c: char): int
    requires IsDigit(c)
  {
    c as int - '0' as int
  }

  function DigitChar(n: int): (c: char)
    requires 0 <= n < 10
    ensures IsDigit(c) && DigitValue(c) == n
  {
    ('0' as int + n) as char
  }

  /** The value of a two-digit decimal string. */
  function TwoDigitValue(s: string): int
    requires |s| == 2 && IsDigit(s[0]) && IsDigit(s[1])
  {
    DigitValue(s[0]) * 10 + DigitValue(s[1])
  }

  /** `n` written with two digits, zero-padded, as `strftime` does. */
  function TwoDigits(n: int): (s: string)
    requires 0 <= n < 100
    ensures |s| == 2 && IsDigit(s[0]) && IsDigit(s[1])
    ensures TwoDigitValue(s) == n
  {
    [DigitChar(n / 10), DigitChar(n % 10)]
  }

  /** `strftime("%y%m%d")`: two-digit year, month and day. */
  function DatePrefix(d: Date): (s: string)
    requires IsCalendarDate(d)
    ensures |s| == 6 && forall i :: 0 <= i < 6 ==> IsDigit(s[i])
    ensures TwoDigitValue(s[0..2]) == d.year % 100
    ensures TwoDigitValue(s[2..4]) == d.month
    ensures TwoDigitValue(s[4..6]) == d.day
  {
    TwoDigits(d.year % 100) + TwoDigits(d.month) + TwoDigits(d.day)
  }

  /** What `uuid.uuid4().hex` yields: 32 lower-case hexadecimal characters. */
  predicate IsUuidHex(u: string)
  {
    |u| == 32 && forall i :: 0 <= i < |u| ==> IsLowerHex(u[i])
  }

  /** The shape `^\d{6}-[0-9a-f]{10}$` of a generated purchase-order number. */
  predicate IsGeneratedPoNumber(s: string)
  {
    |s| == 17 &&
    (forall i :: 0 <= i < 6 ==> IsDigit(s[i])) &&
    s[6] == '-' &&
    (forall i :: 7 <= i < 17 ==> IsLowerHex(s[i]))
  }

  /** The parts a generated purchase-order number is made of. */
  datatype PoNumberParts = PoNumberParts(yy: int, mm: int, dd: int, unique: string)

  /** Reads a generated purchase-order number back into its parts. */
  function DecodePoNumber(s: string): (r: Option<PoNumberParts>)
    ensures r.Some? <==> IsGeneratedPoNumber(s)
    ensures r.Some? ==> 0 <= r.value.yy < 100 && 0 <= r.value.mm < 100 && 0 <= r.value.dd < 100
    ensures r.Some? ==> |r.value.unique| == 10
  {
    if IsGeneratedPoNumber(s) then
      Some(PoNumberParts(TwoDigitValue(s[0..2]), TwoDigitValue(s[2..4]), TwoDigitValue(s[4..6]), s[7..]))
    else
      None
  }

  /** The number `save` gives an order that has none: the date prefix, a
      hyphen, and the first ten characters of a fresh UUID's hex form. */
  function NewPoNumber(today: Date, uuidHex: string): (s: string)
    requires IsCalendarDate(today) && IsUuidHex(uuidHex)
    ensures IsGeneratedPoNumber(s)
    ensures DecodePoNumber(s) == Some(PoNumberParts(today.year % 100, today.month, today.day, uuidHex[..10]))
  {
    var prefix := DatePrefix(today);
    var s := prefix + "-" + uuidHex[..10];
    assert s[0..2] == prefix[0..2];
    assert s[2..4] == prefix[2..4];
    assert s[4..6] == prefix[4..6];
    assert s[7..] == uuidHex[..10];
    s
  }

  /** The first step of `PurchaseOrder.save`: an empty `po_number` is
      replaced by a generated one; a given one is kept. */
  function AssignPoNumber(po: PurchaseOrder, today: Date, uuidHex: string): (r: PurchaseOrder)
    requires IsCalendarDate(today) && IsUuidHex(uuidHex)
    ensures r.poNumber != ""
    ensures po.poNumber != "" ==> r == po
    ensures po.poNumber == "" ==>
      r == po.(poNumber := r.poNumber) &&
      DecodePoNumber(r.poNumber) == Some(PoNumberParts(today.year % 100, today.month, today.day, uuidHex[..10]))
  {
    if po.poNumber == "" then po.(poNumber := NewPoNumber(today, uuidHex)) else po
  }
}
