/** The records that flow through the metrics pipeline: memberships, plans and
    payments as the calculators read them, and the outputs of the calculators
    whose source is not part of this model. Timestamps are whole seconds since
    the Unix epoch; stored dates are milliseconds; day keys are day numbers. */
module Records {
  import opened Common

  const SecondsPerDay: int := 86400
  const MsPerSecond: int := 1000
  const MsPerDay: int := 86400000

  /** The UTC calendar day (days since the epoch) of a non-negative time in seconds. */
  function DayOf(sec: int): int
  {
    sec / SecondsPerDay
  }

  /** `setUTCHours(0, 0, 0, 0)` on a time in milliseconds. */
  function UtcMidnightMs(ms: int): (r: int)
    ensures r <= ms < r + MsPerDay
    ensures r % MsPerDay == 0
  {
    ms - ms % MsPerDay
  }

  datatype Member = Member(id: string, email: string, username: string, name: Field<string>)

  datatype PlanRef = PlanRef(id: string)

  datatype AccessPass = AccessPass(id: string, title: string)

  datatype CompanyRef = CompanyRef(title: Field<string>)

  /** A plan. The calculators read the snake_case fields (`plan_type`,
      `renewal_price`, `billing_period`); the SDK mapping writes the camelCase
      ones. A plan from either source carries whichever it has; the others are
      `Undefined`. */
  datatype Plan = Plan(
    id: string,
    plan_type: Field<string>,
    renewal_price: Field<real>,
    billing_period: Field<int>,
    planType: Field<string>,
    rawRenewalPrice: Field<real>,
    rawInitialPrice: Field<real>,
    billingPeriod: Field<int>,
    accessPass: Field<AccessPass>)

  /** A membership. The point-in-time filters read `createdAt`, `canceledAt` and
      `expiresAt`; the calculators read `canceled_at` and `renewal_period_end`.
      `planData` is attached by enrichment. */
  datatype Membership = Membership(
    id: string,
    status: string,
    createdAt: Field<int>,
    canceledAt: Field<int>,
    expiresAt: Field<int>,
    canceled_at: Field<int>,
    renewal_period_end: Field<int>,
    cancelationReason: Field<string>,
    totalSpend: real,
    plan: Field<PlanRef>,
    member: Field<Member>,
    company: Field<CompanyRef>,
    planData: Field<Plan>)

  /** A payment, in the shape produced by the SDK mapping and read by the filters. */
  datatype Payment = Payment(
    id: string,
    status: string,
    substatus: string,
    created_at: Field<int>,
    paid_at: Field<int>,
    refunded_at: Field<int>,
    total: real,
    subtotal: real,
    refunded_amount: real,
    amount_after_fees: Field<real>,
    billing_reason: string,
    planId: string,
    membershipId: string,
    membershipStatus: string,
    userId: string)

  /** Outputs of the trial, lifetime-value and transaction calculators. Their
      source is not part of this model; they are taken as given functions. */
  datatype TrialMetrics = TrialMetrics(totalTrials: int, activeTrials: int, convertedTrials: int, conversionRate: real)
  datatype ClvMetrics = ClvMetrics(averageCLV: real, medianCLV: real, totalCustomers: int)
  datatype CashFlowMetrics = CashFlowMetrics(grossCashFlow: real, netCashFlow: real, recurringCashFlow: real, nonRecurringCashFlow: real)
  datatype PaymentMetrics = PaymentMetrics(successfulPayments: int, failedPayments: int, totalPayments: int, successRate: real)
  datatype RefundMetrics = RefundMetrics(totalRefunds: int, refundedAmount: real, refundRate: real)

  datatype Calculators = Calculators(
    trials: seq<Membership> -> TrialMetrics,
    clv: seq<Membership> -> ClvMetrics,
    cashFlow: seq<Payment> -> CashFlowMetrics,
    payments: seq<Payment> -> PaymentMetrics,
    refunds: seq<Payment> -> RefundMetrics)

  /** The response sections built from those outputs, as the routes and the
      snapshot cache name their fields. */
  datatype TrialsSection = TrialsSection(total: int, active: int, converted: int, conversionRate: real)
  datatype ClvSection = ClvSection(average: real, median: real, total: int)
  datatype CashFlowSection = CashFlowSection(gross: real, net: real, recurring: real, nonRecurring: real)
  datatype PaymentsSection = PaymentsSection(successful: int, failed: int, total: int, successRate: real)
  datatype RefundsSection = RefundsSection(total: int, amount: real, rate: real)

  function TrialsOf(t: TrialMetrics): TrialsSection
  {
    TrialsSection(t.totalTrials, t.activeTrials, t.convertedTrials, t.conversionRate)
  }

  function ClvOf(c: ClvMetrics): ClvSection
  {
    ClvSection(c.averageCLV, c.medianCLV, c.totalCustomers)
  }

  function CashFlowOf(c: CashFlowMetrics): CashFlowSection
  {
    CashFlowSection(c.grossCashFlow, c.netCashFlow, c.recurringCashFlow, c.nonRecurringCashFlow)
  }

  function PaymentsOf(p: PaymentMetrics): PaymentsSection
  {
    PaymentsSection(p.successfulPayments, p.failedPayments, p.totalPayments, p.successRate)
  }

  function RefundsOf(r: RefundMetrics): RefundsSection
  {
    RefundsSection(r.totalRefunds, r.refundedAmount, r.refundRate)
  }
}
