# Vendor management: performance metrics and purchase-order rules

This project models the business rules of a Django vendor-management backend.
They all live in `vendors/models.py`:

- the four vendor performance metrics, recomputed from a vendor's purchase orders:
  - on-time delivery rate
  - quality-rating average
  - average response time
  - fulfillment rate
- the date-ordering check on a purchase order (`PurchaseOrder.clean`);
- the ten-digit contact check on a vendor (`Vendor.clean`);
- `PurchaseOrder.save`. It gives an order without a number a `YYMMDD-<10 hex>` number. It stores the order. Then it overwrites the owning vendor's four metric fields with freshly computed values.

Modules:

- `Wrappers` (wrappers.dfy): `Option`, and `Outcome`, the result of a `clean()` call that passes or raises a field-keyed `ValidationError`.
- `Seqs` (seqs.dfy): `Filter` (a queryset filter) and `SumOf` (a sum over a list comprehension, or an SQL `Avg`). It also holds lemmas showing that lengths and sums depend only on the multiset of elements. So modelling an unordered query set as a sequence loses nothing.
- `PurchaseOrders` (purchase_orders.dfy): the `PurchaseOrder` datatype, with timestamps as whole seconds. It holds `Clean`, the `%y%m%d` date prefix, the generated number and its decoding.
- `Performance` (performance.dfy): the four calculators as functions over a sequence of orders, with their bounds, zero cases and extreme cases. It also shows they are independent of order, that non-completed orders are ignored, and two worked examples.
- `Vendors` (vendors.dfy): the contact check, and the `Vendor` class. The class holds the vendor's fields, its stored orders and its four metric fields. `SavePurchaseOrder` changes only the orders and the metrics.

The clock and the UUID are parameters:

- `today` is the date `now()` returns;
- `uuidHex` is `uuid4().hex`;
- `issuedAt` is the timestamp `auto_now_add` stamps on an insert;
- `rowExists` says whether the order's row is already in the table. Then the save is an UPDATE and keeps the issue date. That holds whenever the vendor already stores the order, and also when an update moves an order here from another vendor.

The on-time grace period is one day (`timedelta(days=1)`), as the code has it.
A day count is `(ack - issue) / 86400`. Dafny's `/` with a positive divisor rounds down, which is what `timedelta.days` does, negative differences included.

Three things the code does that a reader might not expect are modelled as the code does them:

- `save` never calls `clean`, so storing an order does not check its dates.
- The stored metrics are not clamped to their declared ranges. The ranges are proved to hold under two hypotheses: ratings in [0, 5] (the validators at models.py:90-94) and, as a separate hypothesis that no validator enforces, acknowledgments no earlier than issue.
- `Vendor.objects.create` does not run `clean`, so the constructor does not check the contact details.

## Model

| member | source | states |
|---|---|---|
| `PurchaseOrders.Clean` | vendor_management_system/vendors/models.py:98-102 | passes exactly when the order date is not after the delivery date (equal dates pass); otherwise fails keyed on `delivery_date` |
| `PurchaseOrders.DatePrefix` | vendor_management_system/vendors/models.py:107 | `%y%m%d` of a calendar date is six decimal digits, read back as the year mod 100, the month and the day |
| `PurchaseOrders.DecodePoNumber` | vendor_management_system/vendors/models.py:108 | decodes a string exactly when it has the shape `^\d{6}-[0-9a-f]{10}$`; the parts are two-digit values and a ten-character identifier |
| `PurchaseOrders.NewPoNumber` | vendor_management_system/vendors/models.py:106-108 | the generated number has the shape `^\d{6}-[0-9a-f]{10}$` (17 characters), and decoding it gives back the year mod 100, the month, the day and the first ten UUID hex characters |
| `PurchaseOrders.AssignPoNumber` | vendor_management_system/vendors/models.py:105-108 | the number is never empty afterwards; a given number is kept and the order is unchanged; an empty one is replaced by a generated one and nothing else of the order changes |
| `Performance.ResponseDays` | vendor_management_system/vendors/models.py:66 | the whole-day count d of an acknowledged order satisfies `d*86400 <= ack - issue < (d+1)*86400`: rounding down, as `timedelta.days` does |
| `Performance.Percentage` | vendor_management_system/vendors/models.py:45 | a count ratio times 100 lies in [0, 100]; it is 100 exactly when part equals whole and 0 exactly when part is 0 |
| `Performance.OnTimeDeliveryRate` | vendor_management_system/vendors/models.py:37-45 | the on-time rate lies in [0, 100] |
| `Performance.OnTimeDeliveryRateCases` | vendor_management_system/vendors/models.py:37-45 | 0.0 when no order is completed; otherwise 100.0 exactly when every completed order was delivered within one day of issue, and 0.0 exactly when none was |
| `Performance.QualityRatingAverage` | vendor_management_system/vendors/models.py:47-58 | when every rating is in [0, 5] (the validator at models.py:90-94) the average is in [0, 5] |
| `Performance.QualityRatingAverageWithin` | vendor_management_system/vendors/models.py:47-58 | with at least one completed rated order, the average lies between any lower and upper bound of those orders' ratings (it is their mean) |
| `Performance.AverageResponseTime` | vendor_management_system/vendors/models.py:60-69 | when no acknowledgment precedes its issue date, the average response time is at least 0 |
| `Performance.AverageResponseTimeWithin` | vendor_management_system/vendors/models.py:60-69 | with at least one completed acknowledged order, the average lies between any bounds of those orders' whole-day response times |
| `Performance.AveragesWithoutQualifyingOrders` | vendor_management_system/vendors/models.py:47-69 | the quality average is 0.0 when no completed order is rated; the response time is 0.0 when no completed order is acknowledged |
| `Performance.FulfillmentRate` | vendor_management_system/vendors/models.py:71-76 | the fulfillment rate lies in [0, 100] |
| `Performance.FulfillmentRateCases` | vendor_management_system/vendors/models.py:71-76 | 0.0 with no orders; otherwise 100.0 exactly when every order is completed; 0.0 exactly when no order is completed |
| `Performance.NoOrdersNoMetrics` | vendor_management_system/vendors/tests/test_endpoints.py:305-310 | a vendor without orders has all four metrics at 0.0 |
| `Performance.MetricsDependOnCompletedOrders` | vendor_management_system/vendors/models.py:37-69 | two order lists with the same completed orders, in any order, have the same on-time rate, quality average and response time |
| `Performance.MetricsPermutationInvariant` | vendor_management_system/vendors/models.py:37-76 | all four metrics depend only on the set of orders, not on their order |
| `Performance.NonCompletedOrderIgnored` | vendor_management_system/vendors/models.py:37-76 | adding a non-completed order leaves the first three metrics unchanged and does not raise the fulfillment rate |
| `Performance.QualityRatingAverageExample` | vendor_management_system/vendors/models.py:47-58 | two completed orders rated 4.0 and 5.0 average 4.5 |
| `Performance.MixedOrdersExample` | vendor_management_system/vendors/models.py:37-76 | one on-time completed, one completed ten days late and one pending order give fulfillment 200/3 and on-time rate 50 |
| `Vendors.MatchDigitsThenEnd` | vendor_management_system/vendors/models.py:32 | `\d{k}$` from position i matches exactly when k digits follow and then the end of the string, or a single final newline |
| `Vendors.ContactPatternAcceptsTrailingNewline` | vendor_management_system/vendors/models.py:32 | the pattern accepts `"0123456789\n"`, which is not exactly ten digits |
| `Vendors.ContactPatternVersusTenDigits` | vendor_management_system/vendors/models.py:32 | the pattern accepts exactly the ten-digit strings and those followed by one newline |
| `Vendors.Vendor.CleanAsWritten` | vendor_management_system/vendors/models.py:30-35 | passes exactly when the regular expression as written matches; otherwise fails keyed on `contact_details` |
| `Vendors.Vendor.Clean` | vendor_management_system/vendors/models.py:30-35 | passes exactly when the contact details are ten characters, all decimal digits; otherwise fails keyed on `contact_details`; it differs from the as-written check only on ten digits plus a newline |
| `Vendors.Upsert` | vendor_management_system/vendors/models.py:109 | the stored orders after saving contain the saved order, and every other stored order whose key differs; the count grows by one exactly when no stored order has the saved order's key (an INSERT, or an order moved here from another vendor) |
| `Vendors.UpsertKeepsIdsDistinct` | vendor_management_system/vendors/models.py:109 | storing an order keeps primary keys unique |
| `Vendors.UpsertContents` | vendor_management_system/vendors/models.py:109 | as a multiset, the stored orders are the old ones with other keys plus the saved order once |
| `Vendors.UpsertKeepsBounds` | vendor_management_system/vendors/models.py:109 | storing an order whose rating is in [0, 5] (acknowledged no earlier than issue) keeps that true of every stored order |
| `Vendors.Vendor.constructor` | vendor_management_system/vendors/models.py:12-28 | a new vendor has the given fields, no orders, every metric at the default 0.0, and these defaults equal the metrics of no orders |
| `Vendors.Vendor.RecomputeMetrics` | vendor_management_system/vendors/models.py:111-121 | the four metric fields equal the four calculators applied to the stored orders; no other field changes |
| `Vendors.Vendor.SavePurchaseOrder` | vendor_management_system/vendors/models.py:104-122 | the saved order has a non-empty number: a given one is kept, an empty one is generated from today's date and the UUID. On an insert (the row is not yet in the table) the issue date is stamped; on an update, including an order moved here from another vendor, it is kept. The stored orders are the old ones with the saved order replacing or joining them. Afterwards the four metric fields equal the calculators over the stored orders, so the rates are in [0, 100], the quality average is in [0, 5] when the ratings are, and the response time is non-negative when acknowledgments follow issue. Name, contact details, address and vendor code are unchanged |

## Left out

- HTTP views, URL routing, serializers, token login and logout: request plumbing with no business rule. The performance view's recomputed on-time rate is never saved or returned, so nothing of it is modelled.
- The acknowledge action: its view is not part of this model (it is not defined in the views file), so nothing sets `acknowledgment_date` here; the date is an input field of the order.
- Persistence is not modelled: the database, SQL aggregation, cascade delete and `HistoricalPerfomance` (a plain record with no behaviour). A vendor's `purchaseorder_set` is an in-memory sequence.
- The uniqueness constraint on `po_number` and collisions of the ten-character identifier: a database constraint, not model logic.
- Primary keys: the model takes an order's key as given. Assigning a fresh key on insert is done by the database.
- Vendors.Vendor.SavePurchaseOrder: the `vendor_id` test at models.py:111 is always true here, because the method is called on the owning vendor. An update that moves an order to another vendor refreshes only the new vendor's metrics, in the source as well. The new vendor's side is modelled (an UPDATE, `rowExists`, issue date kept); the model has one vendor and does not show the old vendor keeping the order in its metrics.
- Vendors.Vendor.SavePurchaseOrder: the two clock reads, for the number's date and for `auto_now_add`, are separate parameters. Time zones and sub-second precision are not modelled; timestamps are whole seconds.
- Vendors.Vendor.CleanAsWritten: `\d` is read as an ASCII digit. Python's `\d` on `str` also matches other Unicode decimal digits, which the model does not enumerate.
- Floating point: metrics are Dafny `real`, so IEEE rounding is not modelled. The `or 0.0` at models.py:56 only replaces an average of 0.0 by 0.0, which is the same real.
- Field validators (`MinValueValidator`, `MaxValueValidator`) are not enforced on save, in the source or here. Their ranges appear as hypotheses of the bound properties. The `items` and `quantity` fields take part in no rule and are not carried.
- Concurrency: two saves racing on one vendor's metrics is not modelled (single-threaded model).

## Findings

| source | as written | input that shows it | evidently intended | confidence | as-written member | corrected member |
|---|---|---|---|---|---|---|
| vendor_management_system/vendors/models.py:32 | `re.match` with `^\d{10}$`. Python's `$` also matches just before a newline that ends the string | `"0123456789\n"`: ten digits and a newline pass the check | exactly ten digits, as the error message and the field's `max_length=10` say | not executed; high | `Vendors.Vendor.CleanAsWritten` (with `Vendors.ContactPatternAcceptsTrailingNewline`) | `Vendors.Vendor.Clean` |
