/** The four performance metrics of vendors/models.py
    (`Vendor.calculate_*`), as functions of a vendor's purchase orders. Each
    filters the orders, counts or averages, and answers 0.0 where the
    denominator would be zero. Metrics are `real`: float rounding is not
    modelled. */
module Performance {
  import opened Wrappers
  import opened Seqs
  import opened PurchaseOrders

  /** Grace period after the issue date within which a delivery is on time:
      `timedelta(days=1)`. */
  const GracePeriod: int := SecondsPerDay

  predicate IsCompleted(po: PurchaseOrder)
  {
    po.status == "completed"
  }

  predicate IsOnTime(po: PurchaseOrder)
  {
    po.deliveryDate <= po.issueDate + GracePeriod
  }

  predicate IsRated(po: PurchaseOrder)
  {
    po.qualityRating.Some?
  }

  predicate IsAcknowledged(po: PurchaseOrder)
  {
    po.ackDate.Some?
  }

  /** The orders' quality ratings lie in [0, 5], as the field's validators demand. */
  predicate RatingsInRange(pos: seq<PurchaseOrder>)
  {
    forall po :: po in pos && IsRated(po) ==> 0.0 <= Rating(po) <= 5.0
  }

  /** Every acknowledgment comes no earlier than the issue date. */
  predicate AcknowledgedAfterIssue(pos: seq<PurchaseOrder>)
  {
    forall po :: po in pos && IsAcknowledged(po) ==> po.issueDate <= po.ackDate.value
  }

  /** The quality rating of a rated order (never read for an unrated one). */
  function Rating(po: PurchaseOrder): real
  {
    match po.qualityRating
    case Some(r) => r
    case None => 0.0
  }

  /** `(acknowledgment_date - issue_date).days`: whole days, rounded down as
      `timedelta` normalises them, also for a negative difference. */
  function ResponseDays(po: PurchaseOrder): (days: int)
    ensures po.ackDate.Some? ==>
      days * SecondsPerDay <= po.ackDate.value - po.issueDate < (days + 1) * SecondsPerDay
  {
    match po.ackDate
    case Some(ack) => (ack - po.issueDate) / SecondsPerDay
    case None => 0
  }

  function ResponseTime(po: PurchaseOrder): real
  {
    ResponseDays(po) as real
  }

  /** `part / whole * 100` for counts with `part <= whole`. */
  function Percentage(part: nat, whole: nat): (pct: real)
    requires 0 < whole && part <= whole
    ensures 0.0 <= pct <= 100.0
    ensures pct == 100.0 <==> part == whole
    ensures pct == 0.0 <==> part == 0
  {
    var q := part as real / whole as real;
    assert q * whole as real == part as real;
    q * 100.0
  }

  /** `calculate_on_time_delivery_rate`: the percentage of completed orders
      delivered no later than one day after issue; 0.0 when none is completed. */
  function OnTimeDeliveryRate(pos: seq<PurchaseOrder>): (rate: real)
    ensures 0.0 <= rate <= 100.0
  {
    var completed := Filter(pos, IsCompleted);
    if |completed| == 0 then 0.0
    else Percentage(|Filter(completed, IsOnTime)|, |completed|)
  }

  /** No completed order gives 0.0; otherwise the rate is 100.0 exactly when
      every completed order was on time, and 0.0 exactly when none was. */
  lemma OnTimeDeliveryRateCases(pos: seq<PurchaseOrder>)
    ensures (forall po :: po in pos ==> !IsCompleted(po)) ==> OnTimeDeliveryRate(pos) == 0.0
    ensures (exists po :: po in pos && IsCompleted(po)) ==>
      (OnTimeDeliveryRate(pos) == 100.0 <==> forall po :: po in pos && IsCompleted(po) ==> IsOnTime(po))
    ensures (exists po :: po in pos && IsCompleted(po)) ==>
      (OnTimeDeliveryRate(pos) == 0.0 <==> forall po :: po in pos && IsCompleted(po) ==> !IsOnTime(po))
  {
    var completed := Filter(pos, IsCompleted);
    FilterKeepsNone(pos, IsCompleted);
    FilterKeepsAll(completed, IsOnTime);
    FilterKeepsNone(completed, IsOnTime);
  }

  /** `calculate_quality_rating_average`: the mean rating of the completed
      orders that carry one; 0.0 when there are none. */
  function QualityRatingAverage(pos: seq<PurchaseOrder>): (avg: real)
    ensures RatingsInRange(pos) ==> 0.0 <= avg <= 5.0
  {
    var rated := Filter(Filter(pos, IsCompleted), IsRated);
    if |rated| > 0 then
      MeanBounds(rated, Rating, 0.0, 5.0);
      SumOf(rated, Rating) / |rated| as real
    else
      0.0
  }

  /** `calculate_average_response_time`: the mean number of whole days from
      issue to acknowledgment over the completed, acknowledged orders; 0.0
      when there are none. */
  function AverageResponseTime(pos: seq<PurchaseOrder>): (avg: real)
    ensures AcknowledgedAfterIssue(pos) ==> 0.0 <= avg
  {
    var acknowledged := Filter(Filter(pos, IsCompleted), IsAcknowledged);
    if |acknowledged| > 0 then
      MeanBounds(acknowledged, ResponseTime, 0.0, 0.0);
      SumOf(acknowledged, ResponseTime) / |acknowledged| as real
    else
      0.0
  }

  /** `calculate_fulfillment_rate`: the percentage of all orders, of any
      status, that are completed; 0.0 when there are no orders. */
  function FulfillmentRate(pos: seq<PurchaseOrder>): (rate: real)
    ensures 0.0 <= rate <= 100.0
  {
    if |pos| == 0 then 0.0
    else Percentage(|Filter(pos, IsCompleted)|, |pos|)
  }

  /** No orders give 0.0; otherwise the rate is 100.0 exactly when every
      order is completed, and 0.0 exactly when none is. */
  lemma FulfillmentRateCases(pos: seq<PurchaseOrder>)
    ensures |pos| == 0 ==> FulfillmentRate(pos) == 0.0
    ensures |pos| > 0 ==> (FulfillmentRate(pos) == 100.0 <==> forall po :: po in pos ==> IsCompleted(po))
    ensures FulfillmentRate(pos) == 0.0 <==> forall po :: po in pos ==> !IsCompleted(po)
  {
    FilterKeepsAll(pos, IsCompleted);
    FilterKeepsNone(pos, IsCompleted);
  }

  /** Where nothing qualifies, the quality average and the response time are 0.0. */
  lemma AveragesWithoutQualifyingOrders(pos: seq<PurchaseOrder>)
    ensures (forall po :: po in pos && IsCompleted(po) ==> !IsRated(po)) ==> QualityRatingAverage(pos) == 0.0
    ensures (forall po :: po in pos && IsCompleted(po) ==> !IsAcknowledged(po)) ==> AverageResponseTime(pos) == 0.0
  {
    var completed := Filter(pos, IsCompleted);
    FilterKeepsNone(completed, IsRated);
    FilterKeepsNone(completed, IsAcknowledged);
  }

  /** A vendor without orders has every metric at 0.0. */
  lemma NoOrdersNoMetrics()
    ensures OnTimeDeliveryRate([]) == 0.0 && QualityRatingAverage([]) == 0.0
    ensures AverageResponseTime([]) == 0.0 && FulfillmentRate([]) == 0.0
  {
  }

  /** The first three metrics look only at completed orders, and only at
      which ones there are, not at their order in the sequence. */
  lemma MetricsDependOnCompletedOrders(a: seq<PurchaseOrder>, b: seq<PurchaseOrder>)
    requires multiset(Filter(a, IsCompleted)) == multiset(Filter(b, IsCompleted))
    ensures OnTimeDeliveryRate(a) == OnTimeDeliveryRate(b)
    ensures QualityRatingAverage(a) == QualityRatingAverage(b)
    ensures AverageResponseTime(a) == AverageResponseTime(b)
  {
    var ca, cb := Filter(a, IsCompleted), Filter(b, IsCompleted);
    assert |ca| == |multiset(ca)| && |cb| == |multiset(cb)|;
    FilterPermutation(ca, cb, IsOnTime);
    FilterPermutation(ca, cb, IsRated);
    FilterPermutation(ca, cb, IsAcknowledged);
    SumOfPermutation(Filter(ca, IsRated), Filter(cb, IsRated), Rating);
    SumOfPermutation(Filter(ca, IsAcknowledged), Filter(cb, IsAcknowledged), ResponseTime);
  }

  /** The metrics are those of the set of orders: a reordering changes none of them. */
  lemma MetricsPermutationInvariant(a: seq<PurchaseOrder>, b: seq<PurchaseOrder>)
    requires multiset(a) == multiset(b)
    ensures OnTimeDeliveryRate(a) == OnTimeDeliveryRate(b)
    ensures QualityRatingAverage(a) == QualityRatingAverage(b)
    ensures AverageResponseTime(a) == AverageResponseTime(b)
    ensures FulfillmentRate(a) == FulfillmentRate(b)
  {
    FilterPermutation(a, b, IsCompleted);
    MetricsDependOnCompletedOrders(a, b);
    assert |a| == |multiset(a)| && |b| == |multiset(b)|;
  }

  /** Adding an order that is not completed leaves the first three metrics
      unchanged and does not raise the fulfillment rate. */
  lemma NonCompletedOrderIgnored(pos: seq<PurchaseOrder>, po: PurchaseOrder)
    requires !IsCompleted(po)
    ensures OnTimeDeliveryRate(pos + [po]) == OnTimeDeliveryRate(pos)
    ensures QualityRatingAverage(pos + [po]) == QualityRatingAverage(pos)
    ensures AverageResponseTime(pos + [po]) == AverageResponseTime(pos)
    ensures FulfillmentRate(pos + [po]) <= FulfillmentRate(pos)
  {
    var a, b := Filter(pos + [po], IsCompleted), Filter(pos, IsCompleted);
    forall x ensures multiset(a)[x] == multiset(b)[x] {
      assert multiset(pos + [po]) == multiset(pos) + multiset{po};
      FilterMultiset(pos + [po], IsCompleted, x);
      FilterMultiset(pos, IsCompleted, x);
    }
    assert multiset(a) == multiset(b);
    MetricsDependOnCompletedOrders(pos + [po], pos);
    assert |a| == |b| by {
      assert |a| == |multiset(a)| && |b| == |multiset(b)|;
    }
    if |pos| > 0 {
      FulfillmentShrinks(|b|, |pos|);
    }
  }

  lemma FulfillmentShrinks(k: nat, n: nat)
    requires 0 < n && k <= n
    ensures Percentage(k, n + 1) <= Percentage(k, n)
  {
    var p, q := k as real / (n + 1) as real, k as real / n as real;
    assert p * (n + 1) as real == k as real;
    assert q * n as real == k as real;
    assert p >= 0.0;
    assert p * n as real <= p * (n + 1) as real;
    assert p * n as real <= q * n as real;
    assert p <= q;
  }

  /** The quality average lies between the lowest and highest rating of the
      completed, rated orders. */
  lemma QualityRatingAverageWithin(pos: seq<PurchaseOrder>, lo: real, hi: real)
    requires exists po :: po in pos && IsCompleted(po) && IsRated(po)
    requires forall po :: po in pos && IsCompleted(po) && IsRated(po) ==> lo <= Rating(po) <= hi
    ensures lo <= QualityRatingAverage(pos) <= hi
  {
    var rated := Filter(Filter(pos, IsCompleted), IsRated);
    var po :| po in pos && IsCompleted(po) && IsRated(po);
    assert po in rated;
    MeanBounds(rated, Rating, lo, hi);
  }

  /** The average response time lies between the shortest and longest
      response, in whole days, of the completed, acknowledged orders. */
  lemma AverageResponseTimeWithin(pos: seq<PurchaseOrder>, lo: int, hi: int)
    requires exists po :: po in pos && IsCompleted(po) && IsAcknowledged(po)
    requires forall po :: po in pos && IsCompleted(po) && IsAcknowledged(po) ==> lo <= ResponseDays(po) <= hi
    ensures lo as real <= AverageResponseTime(pos) <= hi as real
  {
    var acknowledged := Filter(Filter(pos, IsCompleted), IsAcknowledged);
    var po :| po in pos && IsCompleted(po) && IsAcknowledged(po);
    assert po in acknowledged;
    MeanBounds(acknowledged, ResponseTime, lo as real, hi as real);
  }

  /** Two completed orders rated 4.0 and 5.0 average to 4.5. */
  lemma QualityRatingAverageExample()
    ensures QualityRatingAverage([
      PurchaseOrder(1, "PO1", 0, 0, "completed", Some(4.0), 0, None),
      PurchaseOrder(2, "PO2", 0, 0, "completed", Some(5.0), 0, None)]) == 4.5
  {
    var a := PurchaseOrder(1, "PO1", 0, 0, "completed", Some(4.0), 0, None);
    var b := PurchaseOrder(2, "PO2", 0, 0, "completed", Some(5.0), 0, None);
    assert Filter([a, b], IsCompleted) == [a, b] by {
      assert [a, b][1..] == [b];
    }
    assert Filter([a, b], IsRated) == [a, b] by {
      assert [a, b][1..] == [b];
    }
    assert SumOf([b], Rating) == 5.0 by {
      assert [b][1..] == [];
    }
    assert SumOf([a, b], Rating) == 9.0 by {
      assert [a, b][1..] == [b];
    }
  }

  /** One completed order on time, one completed ten days late and one
      pending: two of three fulfilled, one of two on time. */
  lemma MixedOrdersExample()
    ensures FulfillmentRate([
      PurchaseOrder(1, "PO1", 0, 0, "completed", None, 0, None),
      PurchaseOrder(2, "PO2", 0, 10 * SecondsPerDay, "completed", None, 0, None),
      PurchaseOrder(3, "PO3", 0, 0, "pending", None, 0, None)]) == 200.0 / 3.0
    ensures OnTimeDeliveryRate([
      PurchaseOrder(1, "PO1", 0, 0, "completed", None, 0, None),
      PurchaseOrder(2, "PO2", 0, 10 * SecondsPerDay, "completed", None, 0, None),
      PurchaseOrder(3, "PO3", 0, 0, "pending", None, 0, None)]) == 50.0
  {
    var a := PurchaseOrder(1, "PO1", 0, 0, "completed", None, 0, None);
    var b := PurchaseOrder(2, "PO2", 0, 10 * SecondsPerDay, "completed", None, 0, None);
    var c := PurchaseOrder(3, "PO3", 0, 0, "pending", None, 0, None);
    assert Filter([c], IsCompleted) == [] by {
      assert [c][1..] == [];
    }
    assert Filter([b, c], IsCompleted) == [b] by {
      assert [b, c][1..] == [c];
    }
    assert Filter([a, b, c], IsCompleted) == [a, b] by {
      assert [a, b, c][1..] == [b, c];
    }
    assert Filter([b], IsOnTime) == [] by {
      assert [b][1..] == [];
    }
    assert Filter([a, b], IsOnTime) == [a] by {
      assert [a, b][1..] == [b];
    }
    assert Percentage(1, 2) == 50.0;
    assert Percentage(2, 3) == 200.0 / 3.0;
  }
}
