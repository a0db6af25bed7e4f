/** Monthly recurring revenue: price normalisation, the MRR breakdown by billing
    period, and the annual run rate and revenue per user derived from it. */
module Mrr {
  import opened Common
  import opened Records

  predicate KnownPeriod(billingPeriod: string)
  {
    billingPeriod in {"month", "year", "quarter", "week", "day", "lifetime"}
  }

  /** `normalizePriceToMonthly`: a price in cents for one billing period, as
      dollars per month. Each ensures says how the monthly figure recovers the
      dollar price of the period. */
  function NormalizePriceToMonthly(price: real, billingPeriod: string): (r: real)
    ensures billingPeriod == "month" ==> r * 100.0 == price
    ensures billingPeriod == "year" ==> r * 12.0 * 100.0 == price
    ensures billingPeriod == "quarter" ==> r * 3.0 * 100.0 == price
    ensures billingPeriod == "week" ==> r * 100.0 == price * 4.33
    ensures billingPeriod == "day" ==> r * 100.0 == price * 30.0
    ensures billingPeriod == "lifetime" ==> r == 0.0
    ensures !KnownPeriod(billingPeriod) ==> r * 100.0 == price
    ensures price >= 0.0 ==> r >= 0.0
  {
    var priceInDollars := price / 100.0;
    if billingPeriod == "month" then priceInDollars
    else if billingPeriod == "year" then priceInDollars / 12.0
    else if billingPeriod == "quarter" then priceInDollars / 3.0
    else if billingPeriod == "week" then priceInDollars * 4.33
    else if billingPeriod == "day" then priceInDollars * 30.0
    else if billingPeriod == "lifetime" then 0.0
    else priceInDollars
  }

  /** The activity test shared by the MRR and subscriber calculators, with the
      current time `now` (seconds) made explicit. `canceled_at` must be exactly
      `null`: an absent field is not. */
  predicate IsActive(m: Membership, now: int)
  {
    (m.status == "active" || m.status == "completed")
    && m.canceled_at == Null
    && (m.renewal_period_end == Null || (m.renewal_period_end.Val? && m.renewal_period_end.v > now))
  }

  /** Kept by `calculateMRR`'s filter: active and carrying plan data. */
  predicate Counted(m: Membership, now: int)
  {
    IsActive(m, now) && m.planData.Val?
  }

  function CountedAt(now: int): Membership -> bool
  {
    m => Counted(m, now)
  }

  /** One-time plans and plans renewing at price 0 are skipped. */
  predicate Skipped(p: Plan)
  {
    p.plan_type == Val("one_time") || p.renewal_price == Val(0.0)
  }

  predicate Contributes(m: Membership, now: int)
  {
    Counted(m, now) && !Skipped(m.planData.v)
  }

  /** `planData.billing_period || 30`: a falsy period (absent, null, 0) reads as 30 days. */
  function BillingDays(p: Plan): (d: int)
    ensures d != 0
    ensures TruthyNum(p.billing_period) ==> d == p.billing_period.v
  {
    if TruthyNum(p.billing_period) then p.billing_period.v else 30
  }

  /** `renewal_price` as arithmetic sees it: `null` counts as 0, an absent field gives `NaN`. */
  function PriceOf(p: Plan): JsNumber
  {
    match p.renewal_price
    case Val(v) => Finite(v)
    case Null => Finite(0.0)
    case Undefined => NaN
  }

  /** `(price / billingPeriod) * 30`. */
  function MonthlyRevenue(p: Plan): (r: JsNumber)
    ensures r.Finite? <==> p.renewal_price != Undefined
    ensures r.Finite? ==> r.value * BillingDays(p) as real == PriceOf(p).value * 30.0
  {
    var price := PriceOf(p);
    if price.Finite? then Finite(price.value / BillingDays(p) as real * 30.0) else NaN
  }

  datatype Bucket = Monthly | Annual | Quarterly | OtherPeriod

  function BucketOf(p: Plan): Bucket
  {
    var d := BillingDays(p);
    if d == 30 then Monthly else if d == 365 then Annual else if d == 90 then Quarterly else OtherPeriod
  }

  datatype Breakdown = Breakdown(monthly: JsNumber, annual: JsNumber, quarterly: JsNumber, other: JsNumber)
  {
    function Get(k: Bucket): JsNumber
    {
      match k
      case Monthly => monthly
      case Annual => annual
      case Quarterly => quarterly
      case OtherPeriod => other
    }

    function Add(k: Bucket, x: JsNumber): Breakdown
    {
      match k
      case Monthly => this.(monthly := Plus(monthly, x))
      case Annual => this.(annual := Plus(annual, x))
      case Quarterly => this.(quarterly := Plus(quarterly, x))
      case OtherPeriod => this.(other := Plus(other, x))
    }

    /** `monthly + annual + quarterly + other`. */
    function Total(): JsNumber
    {
      Plus(Plus(Plus(monthly, annual), quarterly), other)
    }
  }

  const ZeroBreakdown: Breakdown := Breakdown(Finite(0.0), Finite(0.0), Finite(0.0), Finite(0.0))

  datatype MrrData = MrrData(total: JsNumber, breakdown: Breakdown)

  /** The effect of one membership on the breakdown. */
  function Step(b: Breakdown, m: Membership, now: int): Breakdown
  {
    if Contributes(m, now) then b.Add(BucketOf(m.planData.v), MonthlyRevenue(m.planData.v)) else b
  }

  /** The breakdown after processing `ms` in order, starting from zeros. */
  function BreakdownOf(ms: seq<Membership>, now: int): Breakdown
  {
    if |ms| == 0 then ZeroBreakdown else Step(BreakdownOf(ms[..|ms| - 1], now), ms[|ms| - 1], now)
  }

  /** One more membership processed is one more step. */
  lemma BreakdownOfStep(ms: seq<Membership>, i: int, now: int)
    requires 0 <= i < |ms|
    ensures BreakdownOf(ms[..i + 1], now) == Step(BreakdownOf(ms[..i], now), ms[i], now)
  {
    assert ms[..i + 1][..i] == ms[..i];
  }

  /** `calculateMRR`: filter the counted memberships, then add each one's monthly
      revenue to the bucket of its billing period. */
  method CalculateMRR(memberships: seq<Membership>, now: int) returns (r: MrrData)
    ensures r.breakdown == BreakdownOf(memberships, now)
    ensures r.total == r.breakdown.Total()
    ensures |memberships| == 0 ==> r.breakdown == ZeroBreakdown && r.total == Finite(0.0)
  {
    var activeMemberships := Filter(memberships, CountedAt(now));
    var breakdown := ZeroBreakdown;
    var i := 0;
    while i < |activeMemberships|
      invariant 0 <= i <= |activeMemberships|
      invariant breakdown == BreakdownOf(activeMemberships[..i], now)
    {
      var membership := activeMemberships[i];
      ghost var before := breakdown;
      assert CountedAt(now)(membership);
      var planData := membership.planData;
      if planData.Val? {
        var p := planData.v;
        if !(p.plan_type == Val("one_time") || p.renewal_price == Val(0.0)) {
          var price := PriceOf(p);
          var billingPeriod := BillingDays(p);
          var monthlyRevenue := if price.Finite? then Finite(price.value / billingPeriod as real * 30.0) else NaN;
          if billingPeriod == 30 {
            breakdown := breakdown.(monthly := Plus(breakdown.monthly, monthlyRevenue));
          } else if billingPeriod == 365 {
            breakdown := breakdown.(annual := Plus(breakdown.annual, monthlyRevenue));
          } else if billingPeriod == 90 {
            breakdown := breakdown.(quarterly := Plus(breakdown.quarterly, monthlyRevenue));
          } else {
            breakdown := breakdown.(other := Plus(breakdown.other, monthlyRevenue));
          }
        }
      }
      assert breakdown == Step(before, membership, now);
      BreakdownOfStep(activeMemberships, i, now);
      i := i + 1;
    }
    assert activeMemberships[..i] == activeMemberships;
    OnlyCountedMembershipsMatter(memberships, now);
    r := MrrData(breakdown.Total(), breakdown);
  }

  /** `calculateARR`: twelve months of MRR. */
  function CalculateARR(mrr: JsNumber): (r: JsNumber)
    ensures r.Finite? <==> mrr.Finite?
    ensures r.Finite? ==> r.value / 12.0 == mrr.value
  {
    Scale(mrr, 12.0)
  }

  /** `calculateARPU`: MRR per active subscriber, 0 when there are none. */
  function CalculateARPU(mrr: JsNumber, activeSubscribers: int): (r: JsNumber)
    ensures activeSubscribers == 0 ==> r == Finite(0.0)
    ensures activeSubscribers != 0 ==> (r.Finite? <==> mrr.Finite?)
    ensures activeSubscribers != 0 && r.Finite? ==> r.value * activeSubscribers as real == mrr.value
  {
    if activeSubscribers == 0 then Finite(0.0)
    else if mrr.Finite? then Finite(mrr.value / activeSubscribers as real)
    else NaN
  }

  // ---------------------------------------------------------------------------
  // Reference sums, and what the breakdown is in their terms.

  /** What one membership adds to bucket `k`. */
  function Contribution(m: Membership, now: int, k: Bucket): JsNumber
  {
    if Contributes(m, now) && BucketOf(m.planData.v) == k then MonthlyRevenue(m.planData.v) else Finite(0.0)
  }

  /** The sum of the monthly revenues of the memberships in bucket `k`. */
  function BucketSum(ms: seq<Membership>, now: int, k: Bucket): JsNumber
  {
    if |ms| == 0 then Finite(0.0) else Plus(Contribution(ms[0], now, k), BucketSum(ms[1..], now, k))
  }

  /** The sum of the monthly revenues of all contributing memberships. */
  function MrrSum(ms: seq<Membership>, now: int): JsNumber
  {
    if |ms| == 0 then Finite(0.0)
    else Plus(if Contributes(ms[0], now) then MonthlyRevenue(ms[0].planData.v) else Finite(0.0), MrrSum(ms[1..], now))
  }

  lemma {:induction false} BucketSumSnoc(ms: seq<Membership>, x: Membership, now: int, k: Bucket)
    ensures BucketSum(ms + [x], now, k) == Plus(BucketSum(ms, now, k), Contribution(x, now, k))
    decreases |ms|
  {
    if |ms| == 0 {
      assert ms + [x] == [x];
      assert [x][1..] == [];
    } else {
      assert (ms + [x])[1..] == ms[1..] + [x];
      BucketSumSnoc(ms[1..], x, now, k);
      PlusAssociative(Contribution(ms[0], now, k), BucketSum(ms[1..], now, k), Contribution(x, now, k));
    }
  }

  lemma {:induction false} MrrSumSnoc(ms: seq<Membership>, x: Membership, now: int)
    ensures MrrSum(ms + [x], now)
         == Plus(MrrSum(ms, now), if Contributes(x, now) then MonthlyRevenue(x.planData.v) else Finite(0.0))
    decreases |ms|
  {
    if |ms| == 0 {
      assert ms + [x] == [x];
      assert [x][1..] == [];
    } else {
      assert (ms + [x])[1..] == ms[1..] + [x];
      MrrSumSnoc(ms[1..], x, now);
    }
  }

  /** Each bucket of the breakdown is the sum of its memberships' monthly revenues. */
  lemma {:induction false} BreakdownBucketsAreSums(ms: seq<Membership>, now: int, k: Bucket)
    ensures BreakdownOf(ms, now).Get(k) == BucketSum(ms, now, k)
    decreases |ms|
  {
    if |ms| > 0 {
      var init, x := ms[..|ms| - 1], ms[|ms| - 1];
      assert ms == init + [x];
      BreakdownBucketsAreSums(init, now, k);
      BucketSumSnoc(init, x, now, k);
      StepGet(BreakdownOf(init, now), x, now, k);
    }
  }

  /** One step adds the membership's contribution to each bucket. */
  lemma StepGet(b: Breakdown, m: Membership, now: int, k: Bucket)
    ensures Step(b, m, now).Get(k) == Plus(b.Get(k), Contribution(m, now, k))
  {
  }

  lemma TotalAfterAdd(b: Breakdown, k: Bucket, x: JsNumber)
    ensures b.Add(k, x).Total() == Plus(b.Total(), x)
  {
  }

  /** The total is the sum over all contributing memberships, whatever their bucket. */
  lemma {:induction false} MrrTotalIsSum(ms: seq<Membership>, now: int)
    ensures BreakdownOf(ms, now).Total() == MrrSum(ms, now)
    decreases |ms|
  {
    if |ms| > 0 {
      var init, x := ms[..|ms| - 1], ms[|ms| - 1];
      assert ms == init + [x];
      MrrTotalIsSum(init, now);
      MrrSumSnoc(init, x, now);
      if Contributes(x, now) {
        TotalAfterAdd(BreakdownOf(init, now), BucketOf(x.planData.v), MonthlyRevenue(x.planData.v));
      }
    }
  }

  /** The total is `NaN` exactly when some contributing membership's plan has no `renewal_price`. */
  lemma {:induction false} MrrIsNaNIffPriceMissing(ms: seq<Membership>, now: int)
    ensures MrrSum(ms, now).NaN?
        <==> exists i :: 0 <= i < |ms| && Contributes(ms[i], now) && ms[i].planData.v.renewal_price == Undefined
    decreases |ms|
  {
    if |ms| > 0 {
      MrrIsNaNIffPriceMissing(ms[1..], now);
      if exists i :: 0 <= i < |ms[1..]| && Contributes(ms[1..][i], now) && ms[1..][i].planData.v.renewal_price == Undefined {
        var i :| 0 <= i < |ms[1..]| && Contributes(ms[1..][i], now) && ms[1..][i].planData.v.renewal_price == Undefined;
        assert ms[i + 1] == ms[1..][i];
      }
      if exists i :: 0 <= i < |ms| && Contributes(ms[i], now) && ms[i].planData.v.renewal_price == Undefined {
        var i :| 0 <= i < |ms| && Contributes(ms[i], now) && ms[i].planData.v.renewal_price == Undefined;
        if i > 0 {
          assert ms[1..][i - 1] == ms[i];
        }
      }
    }
  }

  /** With priced plans and positive billing periods, MRR is a non-negative number. */
  lemma {:induction false} MrrNonNegative(ms: seq<Membership>, now: int)
    requires forall m :: m in ms && Contributes(m, now) ==>
      PriceOf(m.planData.v).Finite? && PriceOf(m.planData.v).value >= 0.0 && BillingDays(m.planData.v) > 0
    ensures MrrSum(ms, now).Finite? && MrrSum(ms, now).value >= 0.0
    decreases |ms|
  {
    if |ms| > 0 {
      assert forall m :: m in ms[1..] ==> m in ms;
      MrrNonNegative(ms[1..], now);
      var m := ms[0];
      if Contributes(m, now) {
        assert m in ms;
        var p := m.planData.v;
        QuotientNonNegative(PriceOf(p).value, BillingDays(p) as real);
        assert MonthlyRevenue(p).value == PriceOf(p).value / BillingDays(p) as real * 30.0;
      }
    }
  }

  lemma QuotientNonNegative(a: real, d: real)
    requires a >= 0.0 && d > 0.0
    ensures a / d >= 0.0
  {
  }

  /** Only counted memberships (active, with plan data) affect the breakdown. */
  lemma {:induction false} OnlyCountedMembershipsMatter(ms: seq<Membership>, now: int)
    ensures BreakdownOf(Filter(ms, CountedAt(now)), now) == BreakdownOf(ms, now)
    decreases |ms|
  {
    if |ms| > 0 {
      var init, x := ms[..|ms| - 1], ms[|ms| - 1];
      var f := Filter(init, CountedAt(now));
      OnlyCountedMembershipsMatter(init, now);
      assert BreakdownOf(ms, now) == Step(BreakdownOf(init, now), x, now);
      assert Filter(ms, CountedAt(now)) == f + (if Counted(x, now) then [x] else []) by {
        assert ms == init + [x];
        FilterSnoc(init, x, CountedAt(now));
      }
      if Counted(x, now) {
        BreakdownOfSnoc(f, x, now);
      } else {
        assert Step(BreakdownOf(init, now), x, now) == BreakdownOf(init, now);
        assert f + [] == f;
      }
    }
  }


  /** Appending a membership applies one more step. */
  lemma BreakdownOfSnoc(ms: seq<Membership>, x: Membership, now: int)
    ensures BreakdownOf(ms + [x], now) == Step(BreakdownOf(ms, now), x, now)
  {
    assert (ms + [x])[..|ms|] == ms;
  }


  /** A list in which no membership is counted has an all-zero breakdown. */
  lemma {:induction false} NoCountedMembershipsNoMrr(ms: seq<Membership>, now: int)
    requires forall m :: m in ms ==> !Counted(m, now)
    ensures BreakdownOf(ms, now) == ZeroBreakdown
    ensures BreakdownOf(ms, now).Total() == Finite(0.0)
    decreases |ms|
  {
    if |ms| > 0 {
      assert forall m :: m in ms[..|ms| - 1] ==> m in ms;
      NoCountedMembershipsNoMrr(ms[..|ms| - 1], now);
    }
  }

  /** Memberships whose `canceled_at` is absent, as every membership produced by
      the SDK mapping is, never count: their MRR is 0. */
  lemma MembershipsWithoutSnakeCaseFieldsGiveZeroMrr(ms: seq<Membership>, now: int)
    requires forall m :: m in ms ==> m.canceled_at == Undefined
    ensures BreakdownOf(ms, now) == ZeroBreakdown
  {
    NoCountedMembershipsNoMrr(ms, now);
  }

  /** The breakdown of a concatenation: the second list adds to the first's buckets. */
  lemma {:induction false} BreakdownOfConcat(a: seq<Membership>, b: seq<Membership>, now: int, k: Bucket)
    ensures BreakdownOf(a + b, now).Get(k) == Plus(BreakdownOf(a, now).Get(k), BreakdownOf(b, now).Get(k))
    decreases |a|
  {
    BreakdownBucketsAreSums(a + b, now, k);
    BreakdownBucketsAreSums(a, now, k);
    BreakdownBucketsAreSums(b, now, k);
    BucketSumConcat(a, b, now, k);
  }

  lemma {:induction false} BucketSumConcat(a: seq<Membership>, b: seq<Membership>, now: int, k: Bucket)
    ensures BucketSum(a + b, now, k) == Plus(BucketSum(a, now, k), BucketSum(b, now, k))
    decreases |a|
  {
    if |a| == 0 {
      assert a + b == b;
    } else {
      assert (a + b)[1..] == a[1..] + b;
      BucketSumConcat(a[1..], b, now, k);
      PlusAssociative(Contribution(a[0], now, k), BucketSum(a[1..], now, k), BucketSum(b, now, k));
    }
  }

  /** Swapping two halves of the list leaves every bucket unchanged: the order of
      memberships does not matter. */
  lemma BreakdownOrderIndependent(a: seq<Membership>, b: seq<Membership>, now: int)
    ensures BreakdownOf(a + b, now) == BreakdownOf(b + a, now)
  {
    forall k: Bucket
      ensures BreakdownOf(a + b, now).Get(k) == BreakdownOf(b + a, now).Get(k)
    {
      BreakdownOfConcat(a, b, now, k);
      BreakdownOfConcat(b, a, now, k);
      PlusCommutative(BreakdownOf(a, now).Get(k), BreakdownOf(b, now).Get(k));
    }
    var x, y := BreakdownOf(a + b, now), BreakdownOf(b + a, now);
    assert x.Get(Monthly) == y.Get(Monthly) && x.Get(Annual) == y.Get(Annual);
    assert x.Get(Quarterly) == y.Get(Quarterly) && x.Get(OtherPeriod) == y.Get(OtherPeriod);
  }
}
