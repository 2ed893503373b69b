/** The `Vendor` model of vendors/models.py: its contact-details check, and
    the effect of `PurchaseOrder.save` on the vendor that owns the order. The
    vendor's purchase orders (`purchaseorder_set`) are held in memory as a
    sequence keyed by primary key. */
module Vendors {
  import opened Wrappers
  import opened PurchaseOrders
  import opened Performance

  /** Python's `$` outside MULTILINE mode: the end of the string, or the
      position just before a newline that ends it. */
  predicate AtEndAsPython(s: string, i: nat)
  {
    i == |s| || (i + 1 == |s| && s[i] == '\n')
  }

  /** `re.match(r"\d{k}$", s[i..])` with `\d` read as an ASCII digit: k
      digits from position i, then `$`. */
  function MatchDigitsThenEnd(s: string, i: nat, k: nat): (b: bool)
    requires i <= |s|
    ensures b <==>
      (i + k == |s| || (i + k + 1 == |s| && s[i + k] == '\n')) &&
      forall j :: i <= j < i + k ==> IsDigit(s[j])
    decreases k
  {
    if k == 0 then AtEndAsPython(s, i)
    else i < |s| && IsDigit(s[i]) && MatchDigitsThenEnd(s, i + 1, k - 1)
  }

  /** Exactly ten characters, all decimal digits. */
  predicate IsTenDigits(s: string)
  {
    |s| == 10 && forall i :: 0 <= i < |s| ==> IsDigit(s[i])
  }

  /** The pattern `^\d{10}$` as `re.match` applies it accepts a ten-digit
      string followed by one newline, which is not ten digits. */
  lemma ContactPatternAcceptsTrailingNewline()
    ensures MatchDigitsThenEnd("0123456789\n", 0, 10)
    ensures !IsTenDigits("0123456789\n")
  {
  }

  /** That trailing newline is the only difference between the pattern as
      written and "exactly ten digits". */
  lemma ContactPatternVersusTenDigits(s: string)
    ensures MatchDigitsThenEnd(s, 0, 10) <==> IsTenDigits(s) || (|s| == 11 && IsTenDigits(s[..10]) && s[10] == '\n')
  {
  }

  /** Primary keys are unique among a vendor's orders. */
  predicate DistinctIds(pos: seq<PurchaseOrder>)
  {
    forall i, j :: 0 <= i < j < |pos| ==> pos[i].id != pos[j].id
  }

  /** Whether an order with this primary key is already stored. */
  predicate IsStored(pos: seq<PurchaseOrder>, id: nat)
  {
    exists q :: q in pos && q.id == id
  }

  /** The stored orders after `super().save()`: the order replaces the
      stored one with its primary key, or is added when no stored order has
      that key (an INSERT, or an order moved here from another vendor). */
  function Upsert(pos: seq<PurchaseOrder>, po: PurchaseOrder): (r: seq<PurchaseOrder>)
    requires DistinctIds(pos)
    ensures po in r
    ensures forall q :: q in r ==> q == po || (q in pos && q.id != po.id)
    ensures forall q :: q in pos && q.id != po.id ==> q in r
    ensures |r| == if IsStored(pos, po.id) then |pos| else |pos| + 1
  {
    if pos == [] then [po]
    else if pos[0].id == po.id then
      assert forall k :: 1 <= k < |pos| ==> pos[k].id != po.id;
      [po] + pos[1..]
    else
      var rest := Upsert(pos[1..], po);
      assert forall q :: q in pos <==> q == pos[0] || q in pos[1..];
      [pos[0]] + rest
  }

  /** Storing an order keeps primary keys unique. */
  lemma {:induction false} UpsertKeepsIdsDistinct(pos: seq<PurchaseOrder>, po: PurchaseOrder)
    requires DistinctIds(pos)
    ensures DistinctIds(Upsert(pos, po))
  {
    if pos != [] && pos[0].id != po.id {
      UpsertKeepsIdsDistinct(pos[1..], po);
      var r := Upsert(pos, po);
      forall i, j | 0 <= i < j < |r| ensures r[i].id != r[j].id {
        if i == 0 {
          assert r[j] in Upsert(pos[1..], po);
          if r[j] != po {
            var k :| 1 <= k < |pos| && pos[k] == r[j];
          }
        }
      }
    } else if pos != [] {
      var r := Upsert(pos, po);
      forall i, j | 0 <= i < j < |r| ensures r[i].id != r[j].id {
        if i == 0 {
          assert pos[0].id != pos[j].id;
        }
      }
    }
  }

  /** The vendor-side effect of a save, as a set: the orders stored before
      with other primary keys, plus the saved order. */
  lemma {:induction false} UpsertContents(pos: seq<PurchaseOrder>, po: PurchaseOrder, q: PurchaseOrder)
    requires DistinctIds(pos)
    ensures multiset(Upsert(pos, po))[q] ==
      if q == po then 1 else if q.id == po.id then 0 else multiset(pos)[q]
  {
    if pos != [] {
      assert pos == [pos[0]] + pos[1..];
      if pos[0].id == po.id {
        assert forall k :: 1 <= k < |pos| ==> pos[k].id != po.id;
        if q.id == po.id {
          assert q !in pos[1..];
        }
      } else {
        assert DistinctIds(pos[1..]);
        UpsertContents(pos[1..], po, q);
      }
    }
  }

  /** Storing an order whose rating is in range (whose acknowledgment does
      not precede its issue) keeps that true of all stored orders. */
  lemma UpsertKeepsBounds(pos: seq<PurchaseOrder>, po: PurchaseOrder)
    requires DistinctIds(pos)
    ensures RatingsInRange(pos) && RatingsInRange([po]) ==> RatingsInRange(Upsert(pos, po))
    ensures AcknowledgedAfterIssue(pos) && AcknowledgedAfterIssue([po]) ==> AcknowledgedAfterIssue(Upsert(pos, po))
  {
    assert po in [po];
  }

  class Vendor {
    var name: string
    var contactDetails: string
    var address: string
    var vendorCode: string
    var orders: seq<PurchaseOrder>
    var onTimeDeliveryRate: real
    var qualityRatingAvg: real
    var averageResponseTime: real
    var fulfillmentRate: real

    /** The stored orders have distinct primary keys. */
    predicate Valid()
      reads this
    {
      DistinctIds(orders)
    }

    /** The four metric fields hold what the calculators give for the stored orders. */
    predicate MetricsCurrent()
      reads this
    {
      onTimeDeliveryRate == OnTimeDeliveryRate(orders) &&
      qualityRatingAvg == QualityRatingAverage(orders) &&
      averageResponseTime == AverageResponseTime(orders) &&
      fulfillmentRate == FulfillmentRate(orders)
    }

    /** `Vendor.objects.create`: no orders, every metric at its default 0.0,
        which is what the calculators give for no orders. The contact details
        are not checked here: `create` does not call `clean`. */
    constructor (name: string, contactDetails: string, address: string, vendorCode: string)
      ensures this.name == name && this.contactDetails == contactDetails
      ensures this.address == address && this.vendorCode == vendorCode
      ensures orders == []
      ensures onTimeDeliveryRate == 0.0 && qualityRatingAvg == 0.0
      ensures averageResponseTime == 0.0 && fulfillmentRate == 0.0
      ensures Valid() && MetricsCurrent()
    {
      this.name := name;
      this.contactDetails := contactDetails;
      this.address := address;
      this.vendorCode := vendorCode;
      orders := [];
      onTimeDeliveryRate := 0.0;
      qualityRatingAvg := 0.0;
      averageResponseTime := 0.0;
      fulfillmentRate := 0.0;
    }

    /** `Vendor.clean` as written: `re.match(r"^\d{10}$", contact_details)`. */
    function CleanAsWritten(): (o: Outcome)
      reads this
      ensures o == Pass <==> MatchDigitsThenEnd(contactDetails, 0, 10)
      ensures o.Fail? ==> o.error.field == "contact_details"
    {
      if MatchDigitsThenEnd(contactDetails, 0, 10) then Pass
      else Fail(ValidationError("contact_details", "Contact details must contain exactly 10 digits."))
    }

    /** `Vendor.clean` as intended: the contact details are exactly ten digits. */
    function Clean(): (o: Outcome)
      reads this
      ensures o == Pass <==> IsTenDigits(contactDetails)
      ensures o.Fail? ==> o.error.field == "contact_details"
      ensures o != CleanAsWritten() <==> |contactDetails| == 11 && IsTenDigits(contactDetails[..10]) && contactDetails[10] == '\n'
    {
      ContactPatternVersusTenDigits(contactDetails);
      if IsTenDigits(contactDetails) then Pass
      else Fail(ValidationError("contact_details", "Contact details must contain exactly 10 digits."))
    }

    /** `PurchaseOrder.save` for an order of this vendor: give the order a
        number if it has none, store it (stamping the issue date on an
        insert), then recompute the vendor's four metrics from the stored
        orders. `today` and `uuidHex` are what `now()` and `uuid4().hex`
        return; `issuedAt` is the time `auto_now_add` stamps. `rowExists`
        says whether the order's row is already in the table (an UPDATE),
        which it is whenever this vendor stores it, and also when an update
        moves the order here from another vendor. Nothing else of the vendor
        changes. */
    method SavePurchaseOrder(po: PurchaseOrder, today: Date, uuidHex: string, issuedAt: int, rowExists: bool)
      returns (saved: PurchaseOrder)
      requires Valid()
      requires IsCalendarDate(today) && IsUuidHex(uuidHex)
      requires IsStored(orders, po.id) ==> rowExists
      modifies this`orders, this`onTimeDeliveryRate, this`qualityRatingAvg, this`averageResponseTime, this`fulfillmentRate
      ensures Valid() && MetricsCurrent()
      ensures saved.poNumber != ""
      ensures po.poNumber != "" ==> saved.poNumber == po.poNumber
      ensures po.poNumber == "" ==>
        DecodePoNumber(saved.poNumber) == Some(PoNumberParts(today.year % 100, today.month, today.day, uuidHex[..10]))
      ensures saved == po.(poNumber := saved.poNumber, issueDate := saved.issueDate)
      ensures saved.issueDate == if rowExists then po.issueDate else issuedAt
      ensures orders == Upsert(old(orders), saved)
      ensures forall q ::
                multiset(orders)[q] == (if q == saved then 1 else if q.id == po.id then 0 else multiset(old(orders))[q])
      ensures 0.0 <= onTimeDeliveryRate <= 100.0 && 0.0 <= fulfillmentRate <= 100.0
      ensures RatingsInRange(old(orders)) && RatingsInRange([saved]) ==> 0.0 <= qualityRatingAvg <= 5.0
      ensures AcknowledgedAfterIssue(old(orders)) && AcknowledgedAfterIssue([saved]) ==> 0.0 <= averageResponseTime
      ensures name == old(name) && contactDetails == old(contactDetails)
      ensures address == old(address) && vendorCode == old(vendorCode)
    {
      saved := AssignPoNumber(po, today, uuidHex);
      if !rowExists {
        saved := saved.(issueDate := issuedAt);
      }
      ghost var before := orders;
      forall q ensures multiset(Upsert(before, saved))[q] ==
        (if q == saved then 1 else if q.id == po.id then 0 else multiset(before)[q])
      {
        UpsertContents(before, saved, q);
      }
      UpsertKeepsIdsDistinct(orders, saved);
      orders := Upsert(orders, saved);
      UpsertKeepsBounds(before, saved);
      RecomputeMetrics();
    }

    /** The four assignments of `PurchaseOrder.save` that refresh the
        vendor's metrics from its stored orders. */
    method RecomputeMetrics()
      modifies this`onTimeDeliveryRate, this`qualityRatingAvg, this`averageResponseTime, this`fulfillmentRate
      ensures MetricsCurrent()
      ensures orders == old(orders)
      ensures name == old(name) && contactDetails == old(contactDetails)
      ensures address == old(address) && vendorCode == old(vendorCode)
    {
      var stored := orders;
      var onTime, quality := OnTimeDeliveryRate(stored), QualityRatingAverage(stored);
      var response, fulfillment := AverageResponseTime(stored), FulfillmentRate(stored);
      onTimeDeliveryRate, qualityRatingAvg := onTime, quality;
      averageResponseTime, fulfillmentRate := response, fulfillment;
    }
  }
}
