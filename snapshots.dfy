/** What the snapshot stores hold: the body of a `metrics_snapshots` document,
    the per-day entry of a company's `history`, and the revenue figures both
    are derived with. Placeholder sections the code always fills with 0 are
    not represented. */
module Snapshots {
  import opened Common
  import opened Records
  import opened Mrr
  import opened Subscribers

  datatype RawCompany = RawCompany(id: string, title: string, logo: Option<string>, bannerImage: Option<string>)

  /** The figures the analytics response shows beside MRR, kept by the
      enriched route's cache write. */
  datatype SummarySections = SummarySections(
    trials: TrialsSection, clv: ClvSection, cashFlow: CashFlowSection, payments: PaymentsSection, refunds: RefundsSection)

  /** The `rawData` object kept beside a snapshot. The captures and the
      backfill store the company, memberships, plans and transactions; the
      enriched route stores the plans and the summary sections. A `$set` of
      `rawData` replaces the whole object. */
  datatype RawData = RawData(
    company: Option<RawCompany>,
    memberships: Option<seq<Membership>>,
    plans: seq<Plan>,
    transactions: Option<seq<Payment>>,
    summary: Option<SummarySections>)

  /** The raw data of a capture: everything fetched, no summary. */
  function FetchedRawData(company: RawCompany, memberships: seq<Membership>, plans: seq<Plan>, transactions: seq<Payment>): RawData
  {
    RawData(Some(company), Some(memberships), plans, Some(transactions), None)
  }

  datatype Metadata = Metadata(totalMemberships: int, activeMemberships: int, plansCount: int)

  datatype RevenueSection = RevenueSection(total: real, recurring: JsNumber, nonRecurring: JsNumber)
  datatype NetRevenueSection = NetRevenueSection(
    total: real, afterRefunds: real, afterFees: real, margin: real, gross: real, refunds: real, fees: real)
  datatype NewMrrSection = NewMrrSection(total: JsNumber, customers: int)
  datatype ActiveCustomersSection = ActiveCustomersSection(total: int, newCount: int, returning: int)
  datatype CountRate = CountRate(count: int, rate: real)
  datatype FailedChargesSection = FailedChargesSection(total: int, amount: real, rate: real)

  /** The sections only the history backfill writes. */
  datatype BackfillSections = BackfillSections(
    revenue: RevenueSection,
    netRevenue: NetRevenueSection,
    newMrr: NewMrrSection,
    churnedCustomers: int,
    activeCustomers: ActiveCustomersSection,
    newCustomers: int,
    cancellations: CountRate,
    trials: TrialsSection,
    clv: ClvSection,
    cashFlow: CashFlowSection,
    payments: PaymentsSection,
    failedCharges: FailedChargesSection,
    refunds: RefundsSection,
    avgSalePrice: real,
    customerChurnRate: CountRate)

  /** The fields an `upsertDailySnapshot` call `$set`s. `rawData` and the
      backfill sections are optional: a call that does not list them leaves
      the stored ones in place. */
  datatype MetricsBody = MetricsBody(
    mrr: MrrData,
    arr: JsNumber,
    arpu: JsNumber,
    subscribers: SubscriberMetrics,
    activeUniqueSubscribers: int,
    metadata: Metadata,
    rawData: Option<RawData>,
    sections: Option<BackfillSections>)

  /** `$set` of `next` over a stored body. */
  function Merge(stored: MetricsBody, next: MetricsBody): (r: MetricsBody)
    ensures r.(rawData := next.rawData, sections := next.sections) == next
    ensures r.rawData == if next.rawData.Some? then next.rawData else stored.rawData
    ensures r.sections == if next.sections.Some? then next.sections else stored.sections
  {
    next.(rawData := if next.rawData.Some? then next.rawData else stored.rawData,
          sections := if next.sections.Some? then next.sections else stored.sections)
  }

  /** A body that lists every optional field replaces whatever was stored. */
  predicate Complete(b: MetricsBody)
  {
    b.rawData.Some? && b.sections.Some?
  }

  lemma MergeComplete(stored: MetricsBody, next: MetricsBody)
    requires Complete(next)
    ensures Merge(stored, next) == next
  {
  }

  /** Merging is last-writer-wins: a second merge makes the first one's
      listed fields irrelevant when the second lists them too. */
  lemma MergeTwice(stored: MetricsBody, first: MetricsBody, second: MetricsBody)
    ensures Merge(Merge(stored, first), second).(rawData := second.rawData, sections := second.sections) == second
    ensures Complete(second) ==> Merge(Merge(stored, first), second) == second
  {
  }

  /** An entry of a company's `history`, keyed by its UTC day number. */
  datatype DailySnapshot = DailySnapshot(
    date: int,
    mrr: JsNumber,
    arr: JsNumber,
    arpu: JsNumber,
    activeSubscribers: int,
    revenue: real,
    netRevenue: real,
    activeCustomers: int,
    cancellations: int,
    trials: int,
    clv: real,
    cashFlow: real,
    successfulPayments: int,
    failedCharges: int,
    refunds: int,
    avgSalePrice: real,
    customerChurnRate: real)

  // ---------------------------------------------------------------------------
  // Revenue figures.

  function HasStatus(s: string): Payment -> bool
  {
    (p: Payment) => p.status == s
  }

  /** The sum of `total` over a list of payments. */
  function SumTotals(ps: seq<Payment>): real
  {
    if |ps| == 0 then 0.0 else ps[0].total + SumTotals(ps[1..])
  }

  /** `reduce((sum, p) => p.status === 'paid' ? sum + p.total : sum, 0)`. */
  function TotalRevenue(ps: seq<Payment>): real
  {
    if |ps| == 0 then 0.0
    else (if ps[0].status == "paid" then ps[0].total else 0.0) + TotalRevenue(ps[1..])
  }

  /** Total revenue is the total of the paid payments alone. */
  lemma {:induction false} TotalRevenueIsPaidTotal(ps: seq<Payment>)
    ensures TotalRevenue(ps) == SumTotals(Filter(ps, HasStatus("paid")))
    decreases |ps|
  {
    if |ps| > 0 {
      TotalRevenueIsPaidTotal(ps[1..]);
    }
  }

  /** With non-negative totals, revenue is non-negative and at most the sum of
      all totals. */
  lemma {:induction false} TotalRevenueBounds(ps: seq<Payment>)
    requires forall p :: p in ps ==> p.total >= 0.0
    ensures 0.0 <= TotalRevenue(ps) <= SumTotals(ps)
    decreases |ps|
  {
    if |ps| > 0 {
      assert forall p :: p in ps[1..] ==> p in ps;
      TotalRevenueBounds(ps[1..]);
    }
  }

  /** With non-negative totals, the revenue of a subsequence of the payments
      is at most the revenue of them all. */
  lemma {:induction false} TotalRevenueOfSubsequence(a: seq<Payment>, b: seq<Payment>)
    requires SubsequenceOf(a, b)
    requires forall p :: p in b ==> p.total >= 0.0
    ensures TotalRevenue(a) <= TotalRevenue(b)
    decreases |b|
  {
    if |a| == 0 {
      TotalRevenueBounds(b);
    } else {
      assert |b| > 0;
      assert forall p :: p in b[1..] ==> p in b;
      if a[0] == b[0] {
        TotalRevenueOfSubsequence(a[1..], b[1..]);
      } else {
        TotalRevenueOfSubsequence(a, b[1..]);
      }
    }
  }

  /** `totalRevenue * 0.029 + totalPayments * 0.30`. */
  function ProcessingFees(revenue: real, totalPayments: int): real
  {
    revenue * 0.029 + totalPayments as real * 0.30
  }

  /** `gross - refunded - fees`. */
  function NetRevenue(revenue: real, refunded: real, totalPayments: int): (r: real)
    ensures r + refunded + ProcessingFees(revenue, totalPayments) == revenue
  {
    revenue - refunded - ProcessingFees(revenue, totalPayments)
  }

  /** `whole > 0 ? (part / whole) * 100 : 0` over counts. */
  function CountRateOrZero(part: int, whole: int): (r: real)
    ensures whole == 0 ==> r == 0.0
    ensures IsPercentOf(r, part as real, whole as real)
    ensures 0 <= part <= whole ==> 0.0 <= r <= 100.0
  {
    PercentOr(part as real, whole as real, 0.0)
  }

  /** `totalPayments > 0 ? totalRevenue / totalPayments : 0`. */
  function AvgSalePrice(revenue: real, totalPayments: int): (r: real)
    ensures totalPayments <= 0 ==> r == 0.0
    ensures totalPayments > 0 ==> r * totalPayments as real == revenue
  {
    if totalPayments > 0 then revenue / totalPayments as real else 0.0
  }

  /** The cancellation (and customer churn) rate of subscriber counts made by
      `calculateSubscriberMetrics` lies in [0, 100]. */
  lemma CancellationRateBounded(s: SubscriberMetrics)
    requires s.active >= 0 && s.cancelled >= 0 && s.past_due >= 0 && s.trialing >= 0
    requires s.total == s.active + s.cancelled + s.past_due + s.trialing
    ensures 0.0 <= CountRateOrZero(s.cancelled, s.total) <= 100.0
  {
  }

  /** The history entry of the manual routes for day `date`, from the
      calculator outputs of that day. */
  function DailySnapshotOf(
    date: int, mrr: MrrData, activeUnique: int, subscribers: SubscriberMetrics,
    trials: TrialMetrics, clv: ClvMetrics, cashFlow: CashFlowMetrics,
    paymentMetrics: PaymentMetrics, refundMetrics: RefundMetrics, payments: seq<Payment>): (s: DailySnapshot)
    ensures s.date == date && s.mrr == mrr.total
    ensures s.arr == CalculateARR(mrr.total) && s.arpu == CalculateARPU(mrr.total, activeUnique)
    ensures s.activeSubscribers == activeUnique && s.activeCustomers == activeUnique
    ensures s.revenue == TotalRevenue(payments)
    ensures s.netRevenue + refundMetrics.refundedAmount + ProcessingFees(s.revenue, paymentMetrics.totalPayments) == s.revenue
    ensures subscribers.total == 0 ==> s.customerChurnRate == 0.0
    ensures paymentMetrics.totalPayments <= 0 ==> s.avgSalePrice == 0.0
    ensures s.cancellations == subscribers.cancelled
  {
    var totalRevenue := TotalRevenue(payments);
    DailySnapshot(
      date := date,
      mrr := mrr.total,
      arr := CalculateARR(mrr.total),
      arpu := CalculateARPU(mrr.total, activeUnique),
      activeSubscribers := activeUnique,
      revenue := totalRevenue,
      netRevenue := NetRevenue(totalRevenue, refundMetrics.refundedAmount, paymentMetrics.totalPayments),
      activeCustomers := activeUnique,
      cancellations := subscribers.cancelled,
      trials := trials.totalTrials,
      clv := clv.averageCLV,
      cashFlow := cashFlow.netCashFlow,
      successfulPayments := paymentMetrics.successfulPayments,
      failedCharges := paymentMetrics.failedPayments,
      refunds := refundMetrics.totalRefunds,
      avgSalePrice := AvgSalePrice(totalRevenue, paymentMetrics.totalPayments),
      customerChurnRate := CountRateOrZero(subscribers.cancelled, subscribers.total))
  }
}
