/** The 365-day history backfill: fetch the company, its memberships, plans
    and payments; enrich the memberships; then for each of the 366 days from
    365 days ago to today rebuild that day's memberships and payments and
    write a snapshot. The world outside (the company lookup, the three list
    endpoints and the store's failures) is a parameter. Times are whole
    seconds; store times are milliseconds. */
module Backfill {
  import opened Common
  import opened Records
  import opened Mrr
  import opened Subscribers
  import opened Pagination
  import opened Enrichment
  import opened PointInTime
  import opened Snapshots
  import MetricsRepository
  import CompanyRepository

  /** The company record `getCompany` returns. Only string logos and banner
      images are represented; `raw` stands for the whole object. */
  datatype WhopCompany = WhopCompany(
    id: string,
    title: string,
    route: Option<string>,
    logo: Option<string>,
    bannerImage: Option<string>,
    industryType: Option<string>,
    businessType: Option<string>,
    raw: string)

  /** What the outside world answers during one backfill: the company lookup
      (`None` when it throws), whether `registerCompany` throws, the replies of
      the three list endpoints, the `daysAgo` of the iteration whose snapshot
      write throws, if any, and whether `markBackfillCompleted` throws. */
  datatype BackfillWorld = BackfillWorld(
    company: Option<WhopCompany>,
    registerFails: bool,
    membershipPages: seq<Reply<Membership>>,
    planPages: seq<Reply<Plan>>,
    paymentPages: seq<RestReply>,
    storeFailsAt: Option<int>,
    markFails: bool)

  /** The fields `registerCompany` is given: `route || companyId`, and
      `industryType`/`businessType` only when truthy; no user id. */
  function CompanyInfoOf(c: WhopCompany, companyId: string): (info: CompanyRepository.CompanyInfo)
    ensures info.title == c.title && info.rawData == Some(c.raw) && info.userId.None?
    ensures info.route == if TruthyStr(c.route) then c.route.value else companyId
    ensures info.industryType.Some? <==> TruthyStr(c.industryType)
  {
    CompanyRepository.CompanyInfo(
      c.title,
      if TruthyStr(c.route) then c.route.value else companyId,
      c.logo,
      if TruthyStr(c.industryType) then c.industryType else None,
      if TruthyStr(c.businessType) then c.businessType else None,
      None,
      Some(c.raw))
  }

  /** Every fetch succeeds. */
  predicate FetchSucceeds(w: BackfillWorld)
  {
    w.company.Some? && DrainSucceeds(w.membershipPages)
    && DrainSucceeds(w.planPages) && RestDrainSucceeds(w.paymentPages)
  }

  /** Some iteration's snapshot write throws. */
  predicate StoreFails(w: BackfillWorld)
  {
    w.storeFailsAt.Some? && 0 <= w.storeFailsAt.value <= 365
  }

  /** The backfill runs to the end: every fetch and every write succeeds. */
  predicate Completes(w: BackfillWorld)
  {
    FetchSucceeds(w) && !w.registerFails && !StoreFails(w) && !w.markFails
  }

  /** The `daysAgo` of the last iteration whose write took effect: the one
      before the failing iteration, or 0 when none fails; 366 when the very
      first write fails. */
  function LastWritten(storeFailsAt: Option<int>): int
  {
    if storeFailsAt.Some? && 0 <= storeFailsAt.value <= 365 then storeFailsAt.value + 1 else 0
  }

  /** The data a successful fetch yields. */
  datatype Fetched = Fetched(company: WhopCompany, memberships: seq<Membership>, plans: seq<Plan>, payments: seq<Payment>)

  function FetchedOf(w: BackfillWorld): Fetched
    requires FetchSucceeds(w)
  {
    Fetched(w.company.value, DrainResult(w.membershipPages).value, DrainResult(w.planPages).value,
            RestDrainResult(w.paymentPages).value)
  }

  // ---------------------------------------------------------------------------
  // Snapshot times.

  /** The snapshot time of the iteration `daysAgo`: 05:00 on the day `daysAgo`
      days before `now` (UTC stands in for the server's local time). */
  function SnapshotTime(now: int, daysAgo: int): (t: int)
    ensures DayOf(t) == DayOf(now) - daysAgo
    ensures t % SecondsPerDay == 5 * 3600
  {
    var t := (DayOf(now) - daysAgo) * SecondsPerDay + 5 * 3600;
    DivOfDayPlusHours(DayOf(now) - daysAgo);
    t
  }

  lemma DivOfDayPlusHours(k: int)
    ensures (k * SecondsPerDay + 5 * 3600) / SecondsPerDay == k
    ensures (k * SecondsPerDay + 5 * 3600) % SecondsPerDay == 5 * 3600
  {
  }

  /** Later iterations (smaller `daysAgo`) have later snapshot times, one day apart. */
  lemma SnapshotTimesIncrease(now: int, daysAgo: int)
    ensures SnapshotTime(now, daysAgo - 1) == SnapshotTime(now, daysAgo) + SecondsPerDay
  {
  }

  // ---------------------------------------------------------------------------
  // The figures of one day.

  /** `(m.createdAt || 0) > since && m.status === 'active'`. */
  function NewSince(since: int): Membership -> bool
  {
    (m: Membership) => CreatedOrZero(m) > since && m.status == "active"
  }

  /** `calculateMRR`'s result, as its contract fixes it. */
  function MrrOf(ms: seq<Membership>, now: int): (r: MrrData)
    ensures r.total == MrrSum(ms, now)
  {
    MrrTotalIsSum(ms, now);
    MrrData(BreakdownOf(ms, now).Total(), BreakdownOf(ms, now))
  }

  /** `calculateSubscriberMetrics`' result, as its contract fixes it. */
  function SubscribersOf(ms: seq<Membership>, now: int): SubscriberMetrics
  {
    SubscriberMetrics(CountIn(ms, now, Active), CountIn(ms, now, Cancelled), CountIn(ms, now, PastDue),
                      CountIn(ms, now, Trialing),
                      CountIn(ms, now, Active) + CountIn(ms, now, Cancelled) + CountIn(ms, now, PastDue) + CountIn(ms, now, Trialing))
  }

  /** `totalRevenue - recurringRevenue` with the recurring figure possibly NaN. */
  function Minus(a: real, b: JsNumber): (r: JsNumber)
    ensures r.Finite? <==> b.Finite?
    ensures r.Finite? ==> r.value + b.value == a
  {
    if b.Finite? then Finite(a - b.value) else NaN
  }

  /** The derived sections of a backfilled day, from that day's memberships
      `ms` and payments `ps`, the snapshot time `t` and the calculators' outputs. */
  function BackfillSectionsOf(
    ms: seq<Membership>, ps: seq<Payment>, t: int, mrr: MrrData, subs: SubscriberMetrics, activeUnique: int,
    trials: TrialMetrics, clv: ClvMetrics, cashFlow: CashFlowMetrics, pm: PaymentMetrics, rm: RefundMetrics): (s: BackfillSections)
    ensures s.revenue.total == TotalRevenue(ps) == s.netRevenue.gross
    ensures s.revenue.recurring == Scale(mrr.total, 30.0)
    ensures s.revenue.nonRecurring.Finite? <==> s.revenue.recurring.Finite?
    ensures s.revenue.nonRecurring.Finite? ==> s.revenue.nonRecurring.value + s.revenue.recurring.value == s.revenue.total
    ensures s.netRevenue.total + s.netRevenue.refunds + s.netRevenue.fees == s.netRevenue.gross
    ensures s.netRevenue.afterRefunds == s.netRevenue.gross - s.netRevenue.refunds
    ensures s.netRevenue.afterFees == s.netRevenue.gross - s.netRevenue.fees
    ensures s.netRevenue.gross <= 0.0 ==> s.netRevenue.margin == 0.0
    ensures IsPercentOf(s.netRevenue.margin, s.netRevenue.total, s.netRevenue.gross)
    ensures s.newMrr.total == Scale(mrr.total, 0.1)
    ensures s.newCustomers == s.newMrr.customers == s.activeCustomers.newCount <= |ms|
    ensures s.activeCustomers.total == activeUnique
    ensures s.activeCustomers.newCount + s.activeCustomers.returning == s.activeCustomers.total
    ensures s.churnedCustomers == subs.cancelled == s.cancellations.count == s.customerChurnRate.count
    ensures subs.total == 0 ==> s.cancellations.rate == 0.0 && s.customerChurnRate.rate == 0.0
    ensures 0 <= subs.cancelled <= subs.total ==> 0.0 <= s.cancellations.rate <= 100.0
    ensures s.failedCharges.total == pm.failedPayments
    ensures s.failedCharges.amount == SumTotals(Filter(ps, HasStatus("failed")))
    ensures pm.totalPayments == 0 ==> s.failedCharges.rate == 0.0
    ensures pm.totalPayments <= 0 ==> s.avgSalePrice == 0.0
  {
    var totalRevenue := TotalRevenue(ps);
    var recurring := Scale(mrr.total, 30.0);
    var fees := ProcessingFees(totalRevenue, pm.totalPayments);
    var net := NetRevenue(totalRevenue, rm.refundedAmount, pm.totalPayments);
    var newCount := |Filter(ms, NewSince(t - 30 * SecondsPerDay))|;
    var cancellationRate := CountRateOrZero(subs.cancelled, subs.total);
    BackfillSections(
      revenue := RevenueSection(totalRevenue, recurring, Minus(totalRevenue, recurring)),
      netRevenue := NetRevenueSection(net, totalRevenue - rm.refundedAmount, totalRevenue - fees,
                                      PercentOr(net, totalRevenue, 0.0), totalRevenue, rm.refundedAmount, fees),
      newMrr := NewMrrSection(Scale(mrr.total, 0.1), newCount),
      churnedCustomers := subs.cancelled,
      activeCustomers := ActiveCustomersSection(activeUnique, newCount, activeUnique - newCount),
      newCustomers := newCount,
      cancellations := CountRate(subs.cancelled, cancellationRate),
      trials := TrialsOf(trials),
      clv := ClvOf(clv),
      cashFlow := CashFlowOf(cashFlow),
      payments := PaymentsOf(pm),
      failedCharges := FailedChargesSection(pm.failedPayments, SumTotals(Filter(ps, HasStatus("failed"))),
                                            CountRateOrZero(pm.failedPayments, pm.totalPayments)),
      refunds := RefundsOf(rm),
      avgSalePrice := AvgSalePrice(totalRevenue, pm.totalPayments),
      customerChurnRate := CountRate(subs.cancelled, cancellationRate))
  }

  function RawCompanyOf(c: WhopCompany): RawCompany
  {
    RawCompany(c.id, c.title, c.logo, c.bannerImage)
  }

  /** The snapshot body written in iteration `daysAgo`. The point-in-time
      filters use the snapshot time; the calculators are given the present. */
  function DayBody(f: Fetched, now: int, daysAgo: int, calcs: Calculators): MetricsBody
  {
    var t := SnapshotTime(now, daysAgo);
    var ms := MembershipsOn(Enrich(f.memberships, PlanIndex(f.plans)), t);
    var ps := PaymentsOn(f.payments, t);
    var mrr := MrrOf(ms, now);
    var subs := SubscribersOf(ms, now);
    var activeUnique := GetActiveUniqueSubscribers(ms, now);
    MetricsBody(
      mrr := mrr,
      arr := CalculateARR(mrr.total),
      arpu := CalculateARPU(mrr.total, activeUnique),
      subscribers := subs,
      activeUniqueSubscribers := activeUnique,
      metadata := Metadata(|f.memberships|, |ms|, |f.plans|),
      rawData := Some(FetchedRawData(RawCompanyOf(f.company), ms, f.plans, ps)),
      sections := Some(BackfillSectionsOf(ms, ps, t, mrr, subs, activeUnique,
        calcs.trials(ms), calcs.clv(ms), calcs.cashFlow(ps), calcs.payments(ps), calcs.refunds(ps))))
  }

  /** What a day's body holds: MRR, subscriber counts and active unique
      subscribers of the memberships that existed at the snapshot time, judged
      at the present; ARR and ARPU from that one MRR total; every optional
      field listed; and no more memberships on the day than in total. */
  lemma DayBodyFacts(f: Fetched, now: int, daysAgo: int, calcs: Calculators)
    ensures var b := DayBody(f, now, daysAgo, calcs);
      var ms := MembershipsOn(Enrich(f.memberships, PlanIndex(f.plans)), SnapshotTime(now, daysAgo));
      Complete(b)
      && b.mrr == MrrOf(ms, now) && b.subscribers == SubscribersOf(ms, now)
      && b.activeUniqueSubscribers == GetActiveUniqueSubscribers(ms, now)
      && b.arr == CalculateARR(b.mrr.total) && b.arpu == CalculateARPU(b.mrr.total, b.activeUniqueSubscribers)
      && b.metadata == Metadata(|f.memberships|, |ms|, |f.plans|)
      && b.metadata.activeMemberships <= b.metadata.totalMemberships
  {
    var t := SnapshotTime(now, daysAgo);
    FilterIsSubsequence(Enrich(f.memberships, PlanIndex(f.plans)), ExistedAtTime(t));
  }

  /** The snapshot time decides which memberships and payments a day sees, but
      the calculators judge activity at the present: a membership that existed
      and was active at the snapshot time but whose renewal period has ended
      since is counted by neither MRR nor the active bucket of that day. */
  lemma CalculatorsUseThePresent(m: Membership, t: int, now: int)
    requires ExistedAt(m, t) && IsActive(m, t)
    requires m.renewal_period_end.Val? && t < m.renewal_period_end.v <= now
    ensures m in MembershipsOn([m], t)
    ensures !Counted(m, now) && Classify(m, now) != Active
  {
  }

  // ---------------------------------------------------------------------------
  // The backfill of one company.

  /** One iteration's computation: filter by the snapshot time, run the
      calculators and assemble the body. */
  method SnapshotForDay(f: Fetched, enriched: seq<Membership>, now: int, daysAgo: int, calcs: Calculators)
    returns (body: MetricsBody)
    requires enriched == Enrich(f.memberships, PlanIndex(f.plans))
    ensures body == DayBody(f, now, daysAgo, calcs)
    ensures Complete(body)
  {
    var t := SnapshotTime(now, daysAgo);
    var membershipsOnDate := MembershipsOn(enriched, t);
    var paymentsOnDate := PaymentsOn(f.payments, t);
    var mrrData := CalculateMRR(membershipsOnDate, now);
    var subscriberMetrics := CalculateSubscriberMetrics(membershipsOnDate, now);
    var activeUniqueSubscribers := GetActiveUniqueSubscribers(membershipsOnDate, now);
    assert mrrData == MrrOf(membershipsOnDate, now);
    assert subscriberMetrics == SubscribersOf(membershipsOnDate, now);
    body := MetricsBody(
      mrr := mrrData,
      arr := CalculateARR(mrrData.total),
      arpu := CalculateARPU(mrrData.total, activeUniqueSubscribers),
      subscribers := subscriberMetrics,
      activeUniqueSubscribers := activeUniqueSubscribers,
      metadata := Metadata(|f.memberships|, |membershipsOnDate|, |f.plans|),
      rawData := Some(FetchedRawData(RawCompanyOf(f.company), membershipsOnDate, f.plans, paymentsOnDate)),
      sections := Some(BackfillSectionsOf(membershipsOnDate, paymentsOnDate, t, mrrData, subscriberMetrics,
        activeUniqueSubscribers, calcs.trials(membershipsOnDate), calcs.clv(membershipsOnDate),
        calcs.cashFlow(paymentsOnDate), calcs.payments(paymentsOnDate), calcs.refunds(paymentsOnDate))));
  }

  /** The body of every iteration, by `daysAgo`. */
  function DayBodies(f: Fetched, now: int, calcs: Calculators): int -> MetricsBody
  {
    daysAgo => DayBody(f, now, daysAgo, calcs)
  }

  /** The metrics collection after the passes from `daysAgo` = 365 down to
      `last` have written `bodies(daysAgo)`: each upserts its body under
      today's document, so the last one's body is what remains; nothing
      changes when no pass wrote. The repository's clock, which each upsert
      reads for the day key and the timestamp, is taken to read `now`
      throughout one company's run. */
  function DaysWritten(
    docs: seq<MetricsRepository.MetricsDoc>, companyId: string, now: int, last: int, bodies: int -> MetricsBody)
    : seq<MetricsRepository.MetricsDoc>
  {
    if last > 365 then docs
    else MetricsRepository.UpsertDocs(docs, companyId, UtcMidnightMs(now * MsPerSecond), now * MsPerSecond, bodies(last))
  }

  /** One more pass overwrites what the earlier passes left: its body, being
      complete, replaces theirs on today's document. */
  lemma DaysWrittenStep(
    docs: seq<MetricsRepository.MetricsDoc>, companyId: string, now: int, daysAgo: int, bodies: int -> MetricsBody)
    requires daysAgo <= 365
    requires Complete(bodies(daysAgo))
    ensures MetricsRepository.UpsertDocs(DaysWritten(docs, companyId, now, daysAgo + 1, bodies), companyId,
              UtcMidnightMs(now * MsPerSecond), now * MsPerSecond, bodies(daysAgo))
         == DaysWritten(docs, companyId, now, daysAgo, bodies)
  {
    if daysAgo + 1 <= 365 {
      MetricsRepository.SecondUpsertWins(docs, companyId, UtcMidnightMs(now * MsPerSecond), now * MsPerSecond,
        bodies(daysAgo + 1), now * MsPerSecond, bodies(daysAgo));
    }
  }

  /** One pass of the day loop: the day's body is computed and upserted under
      the document of the day the backfill runs, over what the passes before it
      (`daysAgo` + 1 up to 365) left there. */
  method WriteEarlierDay(
    companyId: string, f: Fetched, enriched: seq<Membership>, now: int, daysAgo: int, calcs: Calculators,
    ghost before: seq<MetricsRepository.MetricsDoc>, metrics: MetricsRepository.MetricsStore)
    returns (day: int)
    requires enriched == Enrich(f.memberships, PlanIndex(f.plans))
    requires daysAgo <= 365
    requires metrics.docs == DaysWritten(before, companyId, now, daysAgo + 1, DayBodies(f, now, calcs))
    modifies metrics
    ensures day == DayOf(now) - daysAgo
    ensures metrics.docs == DaysWritten(before, companyId, now, daysAgo, DayBodies(f, now, calcs))
  {
    var body := SnapshotForDay(f, enriched, now, daysAgo, calcs);
    metrics.UpsertDailySnapshot(companyId, body, now * MsPerSecond);
    DaysWrittenStep(before, companyId, now, daysAgo, DayBodies(f, now, calcs));
    day := DayOf(SnapshotTime(now, daysAgo));
  }

  /** The day loop for `daysAgo` from 365 down to 1. Every write goes through
      `upsertDailySnapshot`, which keys on today, so the writes land on one
      document and the last body written is what remains. A write that throws
      (the one of day `failAt`) ends the loop, and the writes before it stay. */
  method WriteEarlierDays(
    companyId: string, f: Fetched, enriched: seq<Membership>, now: int, calcs: Calculators, failAt: int,
    metrics: MetricsRepository.MetricsStore)
    returns (ok: bool, generated: seq<int>)
    requires enriched == Enrich(f.memberships, PlanIndex(f.plans))
    modifies metrics
    ensures ok <==> !(0 < failAt <= 365)
    ensures ok ==> |generated| == 365
    ensures ok ==> forall i :: 0 <= i < 365 ==> generated[i] == DayOf(now) - 365 + i
    ensures metrics.docs == DaysWritten(old(metrics.docs), companyId, now, if ok then 1 else failAt + 1, DayBodies(f, now, calcs))
  {
    generated := [];
    var daysAgo := 365;
    while daysAgo > 0
      invariant 0 <= daysAgo <= 365
      invariant |generated| == 365 - daysAgo
      invariant forall i :: 0 <= i < |generated| ==> generated[i] == DayOf(now) - 365 + i
      invariant metrics.docs == DaysWritten(old(metrics.docs), companyId, now, daysAgo + 1, DayBodies(f, now, calcs))
      invariant !(daysAgo < failAt <= 365)
    {
      if failAt == daysAgo {
        return false, generated;
      }
      var day := WriteEarlierDay(companyId, f, enriched, now, daysAgo, calcs, old(metrics.docs), metrics);
      ConsecutiveDaysExtend(generated, DayOf(now) - 365, day);
      generated := generated + [day];
      daysAgo := daysAgo - 1;
    }
    ok := true;
  }

  /** The last pass of the day loop, `daysAgo` = 0: today's body, written over
      whatever the earlier days left on today's document, is the one it keeps;
      when its write throws (`fails`), the earlier days' document stays. */
  method WriteToday(
    companyId: string, f: Fetched, enriched: seq<Membership>, now: int, calcs: Calculators, fails: bool,
    ghost before: seq<MetricsRepository.MetricsDoc>, metrics: MetricsRepository.MetricsStore)
    returns (ok: bool)
    requires enriched == Enrich(f.memberships, PlanIndex(f.plans))
    requires metrics.docs == DaysWritten(before, companyId, now, 1, DayBodies(f, now, calcs))
    modifies metrics
    ensures ok <==> !fails
    ensures ok ==> metrics.docs == MetricsRepository.UpsertDocs(
      before, companyId, UtcMidnightMs(now * MsPerSecond), now * MsPerSecond, DayBody(f, now, 0, calcs))
    ensures metrics.docs == DaysWritten(before, companyId, now, if ok then 0 else 1, DayBodies(f, now, calcs))
  {
    if fails {
      return false;
    }
    var today := SnapshotForDay(f, enriched, now, 0, calcs);
    metrics.UpsertDailySnapshot(companyId, today, now * MsPerSecond);
    DaysWrittenStep(before, companyId, now, 0, DayBodies(f, now, calcs));
    ok := true;
  }

  /** A run of consecutive day numbers stays one when the next day is appended. */
  lemma ConsecutiveDaysExtend(days: seq<int>, first: int, next: int)
    requires forall i :: 0 <= i < |days| ==> days[i] == first + i
    requires next == first + |days|
    ensures forall i :: 0 <= i < |days| + 1 ==> (days + [next])[i] == first + i
  {
  }

  /** The whole day loop, `daysAgo` from 365 down to 0: the earlier days, then
      today, whose body is the one that remains in the store. After a write
      that throws, the body of the iteration before it remains. */
  method WriteDailySnapshots(
    companyId: string, f: Fetched, now: int, calcs: Calculators, storeFailsAt: Option<int>,
    metrics: MetricsRepository.MetricsStore)
    returns (ok: bool, generated: seq<int>)
    modifies metrics
    ensures ok <==> !(storeFailsAt.Some? && 0 <= storeFailsAt.value <= 365)
    ensures ok ==> |generated| == 366
    ensures ok ==> forall i :: 0 <= i < 366 ==> generated[i] == DayOf(now) - 365 + i
    ensures ok ==> metrics.docs == MetricsRepository.UpsertDocs(old(metrics.docs), companyId,
      UtcMidnightMs(now * MsPerSecond), now * MsPerSecond, DayBody(f, now, 0, calcs))
    ensures metrics.docs == DaysWritten(old(metrics.docs), companyId, now, LastWritten(storeFailsAt), DayBodies(f, now, calcs))
  {
    var planMap := BuildPlanMap(f.plans);
    var enriched := Enrich(f.memberships, planMap);
    var failAt := if storeFailsAt.Some? then storeFailsAt.value else -1;
    ok, generated := WriteEarlierDays(companyId, f, enriched, now, calcs, failAt, metrics);
    if !ok {
      assert LastWritten(storeFailsAt) == failAt + 1;
      return;
    }
    ok := WriteToday(companyId, f, enriched, now, calcs, failAt == 0, old(metrics.docs), metrics);
    assert LastWritten(storeFailsAt) == if ok then 0 else 1;
    if ok {
      ConsecutiveDaysExtend(generated, DayOf(now) - 365, DayOf(SnapshotTime(now, 0)));
      generated := generated + [DayOf(SnapshotTime(now, 0))];
    }
  }

  /** The companies collection after one company's backfill: registered when
      Whop returned the company and the registration did not throw, and marked
      too when the backfill succeeded. */
  function CompaniesAfter(docs: seq<CompanyRepository.Company>, companyId: string, w: BackfillWorld, nowMs: int, ok: bool)
    : seq<CompanyRepository.Company>
  {
    if w.company.None? || w.registerFails then docs
    else
      var registered := CompanyRepository.RegisterDocs(docs, w.company.value.id, CompanyInfoOf(w.company.value, companyId), nowMs);
      if ok then CompanyRepository.MarkBackfillCompletedDocs(registered, companyId, nowMs) else registered
  }

  /** The metrics collection after one company's backfill: untouched unless
      the registration and every fetch succeed; then the body of the last
      iteration whose write took effect remains under today's document. */
  function MetricsAfter(docs: seq<MetricsRepository.MetricsDoc>, companyId: string, w: BackfillWorld, now: int, calcs: Calculators)
    : seq<MetricsRepository.MetricsDoc>
  {
    if w.registerFails || !FetchSucceeds(w) then docs
    else DaysWritten(docs, companyId, now, LastWritten(w.storeFailsAt), DayBodies(FetchedOf(w), now, calcs))
  }

  /** The three paginated fetches, memberships, plans and payments, in that
      order; the first that fails ends the backfill. */
  method FetchAll(company: WhopCompany, w: BackfillWorld) returns (fetched: Option<Fetched>)
    requires w.company == Some(company)
    ensures fetched.Some? <==> FetchSucceeds(w)
    ensures fetched.Some? ==> fetched.value == FetchedOf(w)
  {
    var membershipsResult, _, _ := DrainConnection(w.membershipPages);
    if membershipsResult.Failure? {
      return None;
    }
    var plansResult, _, _ := DrainConnection(w.planPages);
    if plansResult.Failure? {
      return None;
    }
    var paymentsResult, _, _ := DrainPayments(w.paymentPages);
    if paymentsResult.Failure? {
      return None;
    }
    fetched := Some(Fetched(company, membershipsResult.value, plansResult.value, paymentsResult.value));
  }

  /** `backfillCompanyHistory`: register the company, drain the three lists,
      write the daily snapshots, and mark the company only after every
      iteration has succeeded. Any failure, the mark's own included, ends it
      with `ok` false. */
  method BackfillCompanyHistory(
    companyId: string, w: BackfillWorld, now: int, calcs: Calculators,
    metrics: MetricsRepository.MetricsStore, companies: CompanyRepository.CompanyStore)
    returns (ok: bool, generated: seq<int>)
    modifies metrics, companies
    ensures ok <==> Completes(w)
    ensures ok ==> |generated| == 366
    ensures ok ==> forall i :: 0 <= i < 366 ==> generated[i] == DayOf(now) - 365 + i
    ensures ok ==> metrics.docs == MetricsRepository.UpsertDocs(old(metrics.docs), companyId,
      UtcMidnightMs(now * MsPerSecond), now * MsPerSecond, DayBody(FetchedOf(w), now, 0, calcs))
    ensures metrics.docs == MetricsAfter(old(metrics.docs), companyId, w, now, calcs)
    ensures companies.docs == CompaniesAfter(old(companies.docs), companyId, w, now * MsPerSecond, ok)
  {
    generated := [];
    var nowMs := now * MsPerSecond;
    if w.company.None? {
      return false, generated;
    }
    var company := w.company.value;
    if w.registerFails {
      return false, generated;
    }
    var _ := companies.RegisterCompany(company.id, CompanyInfoOf(company, companyId), nowMs);

    var fetched := FetchAll(company, w);
    if fetched.None? {
      return false, generated;
    }
    var f := fetched.value;
    ok, generated := WriteDailySnapshots(companyId, f, now, calcs, w.storeFailsAt, metrics);
    if ok {
      if w.markFails {
        return false, generated;
      }
      companies.MarkBackfillCompleted(companyId, nowMs);
    }
  }

  // ---------------------------------------------------------------------------
  // All companies needing a backfill.

  /** The metrics collection after the backfills of the first `n` pending
      companies, in order. */
  function MetricsAfterEach(
    docs: seq<MetricsRepository.MetricsDoc>, pending: seq<CompanyRepository.Company>, n: nat,
    worlds: string -> BackfillWorld, clock: nat -> int, calcs: Calculators)
    : seq<MetricsRepository.MetricsDoc>
    requires n <= |pending|
    decreases n, 1
  {
    if n == 0 then docs else MetricsAfterNth(docs, pending, n - 1, worlds, clock, calcs)
  }

  /** The metrics collection after the backfill of the `k`-th pending company,
      which reads the clock as `clock(k)`. */
  function MetricsAfterNth(
    docs: seq<MetricsRepository.MetricsDoc>, pending: seq<CompanyRepository.Company>, k: nat,
    worlds: string -> BackfillWorld, clock: nat -> int, calcs: Calculators)
    : seq<MetricsRepository.MetricsDoc>
    requires k < |pending|
    decreases k + 1, 0
  {
    var id := pending[k].companyId;
    MetricsAfter(MetricsAfterEach(docs, pending, k, worlds, clock, calcs), id, worlds(id), clock(k), calcs)
  }

  /** The companies collection after the backfills of the first `n` pending
      companies, in order. */
  function CompaniesAfterEach(
    docs: seq<CompanyRepository.Company>, pending: seq<CompanyRepository.Company>, n: nat,
    worlds: string -> BackfillWorld, clock: nat -> int)
    : seq<CompanyRepository.Company>
    requires n <= |pending|
    decreases n, 1
  {
    if n == 0 then docs else CompaniesAfterNth(docs, pending, n - 1, worlds, clock)
  }

  /** The companies collection after the backfill of the `k`-th pending company. */
  function CompaniesAfterNth(
    docs: seq<CompanyRepository.Company>, pending: seq<CompanyRepository.Company>, k: nat,
    worlds: string -> BackfillWorld, clock: nat -> int)
    : seq<CompanyRepository.Company>
    requires k < |pending|
    decreases k + 1, 0
  {
    var id := pending[k].companyId;
    CompaniesAfter(CompaniesAfterEach(docs, pending, k, worlds, clock), id, worlds(id),
                   clock(k) * MsPerSecond, Completes(worlds(id)))
  }

  /** The ids among the first `n` pending companies whose backfill completes. */
  function CompletedIds(pending: seq<CompanyRepository.Company>, n: nat, worlds: string -> BackfillWorld): set<string>
    requires n <= |pending|
  {
    set i | 0 <= i < n && Completes(worlds(pending[i].companyId)) :: pending[i].companyId
  }

  /** One company's backfill keeps every company document in place and
      changes the flag of no other company; a backfill that does not complete
      changes no flag at all. */
  lemma CompaniesAfterKeeps(docs: seq<CompanyRepository.Company>, companyId: string, w: BackfillWorld, nowMs: int, ok: bool)
    ensures var r := CompaniesAfter(docs, companyId, w, nowMs, ok);
      CompanyRepository.KeepsDocs(docs, r)
      && forall k :: 0 <= k < |docs| && (!ok || docs[k].companyId != companyId)
           ==> r[k].backfillCompleted == docs[k].backfillCompleted
  {
    if w.company.Some? && !w.registerFails {
      var info := CompanyInfoOf(w.company.value, companyId);
      CompanyRepository.RegisterKeepsDocs(docs, w.company.value.id, info, nowMs);
      if ok {
        CompanyRepository.MarkKeepsDocs(CompanyRepository.RegisterDocs(docs, w.company.value.id, info, nowMs), companyId, nowMs);
      }
    }
  }

  /** A backfill that completes leaves its company marked, provided the
      company has a document. */
  lemma CompaniesAfterMarks(docs: seq<CompanyRepository.Company>, companyId: string, w: BackfillWorld, nowMs: int)
    requires Completes(w) && CompanyRepository.FindByWhopCompanyId(docs, companyId).Some?
    ensures CompanyRepository.Marked(CompaniesAfter(docs, companyId, w, nowMs, true), companyId)
  {
    var info := CompanyInfoOf(w.company.value, companyId);
    var registered := CompanyRepository.RegisterDocs(docs, w.company.value.id, info, nowMs);
    CompanyRepository.RegisterKeepsDocs(docs, w.company.value.id, info, nowMs);
    CompanyRepository.FirstWithIdKept(docs, registered, companyId);
    CompanyRepository.MarkKeepsDocs(registered, companyId, nowMs);
  }

  /** The backfills of the first `n` pending companies keep every company
      document in place and change the flag only of companies whose backfill
      completed. */
  lemma {:induction false} CompaniesAfterEachKeeps(
    docs: seq<CompanyRepository.Company>, pending: seq<CompanyRepository.Company>, n: nat,
    worlds: string -> BackfillWorld, clock: nat -> int)
    requires n <= |pending|
    ensures var r := CompaniesAfterEach(docs, pending, n, worlds, clock);
      CompanyRepository.KeepsDocs(docs, r)
      && forall k :: 0 <= k < |docs| && docs[k].companyId !in CompletedIds(pending, n, worlds)
           ==> r[k].backfillCompleted == docs[k].backfillCompleted
  {
    if n > 0 {
      var id := pending[n - 1].companyId;
      var p := CompaniesAfterEach(docs, pending, n - 1, worlds, clock);
      CompaniesAfterEachKeeps(docs, pending, n - 1, worlds, clock);
      CompaniesAfterKeeps(p, id, worlds(id), clock(n - 1) * MsPerSecond, Completes(worlds(id)));
      assert CompletedIds(pending, n - 1, worlds) <= CompletedIds(pending, n, worlds);
      assert Completes(worlds(id)) ==> id in CompletedIds(pending, n, worlds);
    }
  }

  /** After the backfills of the first `n` pending companies, each company
      whose backfill completed and that had a document is marked. */
  lemma {:induction false} CompaniesAfterEachMarks(
    docs: seq<CompanyRepository.Company>, pending: seq<CompanyRepository.Company>, n: nat,
    worlds: string -> BackfillWorld, clock: nat -> int, i: nat)
    requires i < n <= |pending|
    requires Completes(worlds(pending[i].companyId))
    requires CompanyRepository.FindByWhopCompanyId(docs, pending[i].companyId).Some?
    ensures CompanyRepository.Marked(CompaniesAfterEach(docs, pending, n, worlds, clock), pending[i].companyId)
  {
    var id := pending[n - 1].companyId;
    var w := worlds(id);
    var p := CompaniesAfterEach(docs, pending, n - 1, worlds, clock);
    var r := CompaniesAfter(p, id, w, clock(n - 1) * MsPerSecond, Completes(w));
    CompaniesAfterKeeps(p, id, w, clock(n - 1) * MsPerSecond, Completes(w));
    if i < n - 1 {
      CompaniesAfterEachMarks(docs, pending, n - 1, worlds, clock, i);
      CompanyRepository.MarkedKept(p, r, pending[i].companyId);
    } else {
      CompaniesAfterEachKeeps(docs, pending, n - 1, worlds, clock);
      CompanyRepository.FirstWithIdKept(docs, p, id);
      CompaniesAfterMarks(p, id, w, clock(n - 1) * MsPerSecond);
    }
  }

  /** After backfilling the first `n` companies that needed it, in order,
      each whose backfill completed is marked. */
  lemma CompletedAreMarked(docs: seq<CompanyRepository.Company>, n: nat, worlds: string -> BackfillWorld, clock: nat -> int)
    requires n <= |CompanyRepository.GetCompaniesNeedingBackfill(docs)|
    ensures var pending := CompanyRepository.GetCompaniesNeedingBackfill(docs);
      forall i :: 0 <= i < n && Completes(worlds(pending[i].companyId)) ==>
        CompanyRepository.Marked(CompaniesAfterEach(docs, pending, n, worlds, clock), pending[i].companyId)
  {
    var pending := CompanyRepository.GetCompaniesNeedingBackfill(docs);
    forall i | 0 <= i < n && Completes(worlds(pending[i].companyId))
      ensures CompanyRepository.Marked(CompaniesAfterEach(docs, pending, n, worlds, clock), pending[i].companyId)
    {
      assert pending[i] in pending;
      CompaniesAfterEachMarks(docs, pending, n, worlds, clock, i);
    }
  }

  /** After backfilling the first `n` companies that needed it, in order, a
      company among them whose backfill failed still has a document that
      needs a backfill. */
  lemma FailedStillPending(docs: seq<CompanyRepository.Company>, n: nat, worlds: string -> BackfillWorld, clock: nat -> int, i: nat)
    requires i < n <= |CompanyRepository.GetCompaniesNeedingBackfill(docs)|
    requires !Completes(worlds(CompanyRepository.GetCompaniesNeedingBackfill(docs)[i].companyId))
    ensures var pending := CompanyRepository.GetCompaniesNeedingBackfill(docs);
      exists c :: c in CompanyRepository.GetCompaniesNeedingBackfill(CompaniesAfterEach(docs, pending, n, worlds, clock))
                  && c.companyId == pending[i].companyId
  {
    var pending := CompanyRepository.GetCompaniesNeedingBackfill(docs);
    var r := CompaniesAfterEach(docs, pending, n, worlds, clock);
    CompaniesAfterEachKeeps(docs, pending, n, worlds, clock);
    assert pending[i] in pending;
    var k :| 0 <= k < |docs| && docs[k] == pending[i];
    assert pending[i].companyId !in CompletedIds(pending, n, worlds);
    assert r[k] in r;
  }

  /** The outcomes the loop reports, read in the companies collection it
      leaves: each company whose backfill completed is marked, and when the
      loop stopped on a failure that company still needs a backfill. */
  lemma OutcomesInStore(
    docs: seq<CompanyRepository.Company>, worlds: string -> BackfillWorld, clock: nat -> int,
    ok: bool, attempted: seq<string>, outcomes: seq<bool>)
    requires var pending := CompanyRepository.GetCompaniesNeedingBackfill(docs);
      |attempted| == |outcomes| <= |pending|
      && (forall i :: 0 <= i < |attempted| ==> attempted[i] == pending[i].companyId)
      && (forall i :: 0 <= i < |outcomes| ==> (outcomes[i] <==> Completes(worlds(attempted[i]))))
      && (!ok ==> |outcomes| > 0 && !outcomes[|outcomes| - 1])
    ensures var after := CompaniesAfterEach(docs, CompanyRepository.GetCompaniesNeedingBackfill(docs), |attempted|, worlds, clock);
      (forall i :: 0 <= i < |outcomes| && outcomes[i] ==> CompanyRepository.Marked(after, attempted[i]))
      && (!ok ==> exists c :: c in CompanyRepository.GetCompaniesNeedingBackfill(after) && c.companyId == attempted[|attempted| - 1])
  {
    var pending := CompanyRepository.GetCompaniesNeedingBackfill(docs);
    var n := |attempted|;
    var after := CompaniesAfterEach(docs, pending, n, worlds, clock);
    CompletedAreMarked(docs, n, worlds, clock);
    forall i | 0 <= i < n && outcomes[i]
      ensures CompanyRepository.Marked(after, attempted[i])
    {
      assert attempted[i] == pending[i].companyId;
    }
    if !ok {
      assert attempted[n - 1] == pending[n - 1].companyId;
      FailedStillPending(docs, n, worlds, clock, n - 1);
    }
  }

  /** One company's backfill as the loop over companies sees it: its outcome,
      and the stores as `backfillCompanyHistory` leaves them. */
  method BackfillOne(
    companyId: string, w: BackfillWorld, now: int, calcs: Calculators,
    metrics: MetricsRepository.MetricsStore, companies: CompanyRepository.CompanyStore)
    returns (ok: bool)
    modifies metrics, companies
    ensures ok <==> Completes(w)
    ensures metrics.docs == MetricsAfter(old(metrics.docs), companyId, w, now, calcs)
    ensures companies.docs == CompaniesAfter(old(companies.docs), companyId, w, now * MsPerSecond, Completes(w))
  {
    var generated;
    ok, generated := BackfillCompanyHistory(companyId, w, now, calcs, metrics, companies);
  }

  /** The backfills of the first `n` pending companies all complete. */
  predicate AllComplete(pending: seq<CompanyRepository.Company>, n: nat, worlds: string -> BackfillWorld)
    requires n <= |pending|
  {
    n == 0 || (AllComplete(pending, n - 1, worlds) && Completes(worlds(pending[n - 1].companyId)))
  }

  lemma {:induction false} AllCompleteMeans(pending: seq<CompanyRepository.Company>, n: nat, worlds: string -> BackfillWorld)
    requires n <= |pending|
    ensures AllComplete(pending, n, worlds) <==> forall j :: 0 <= j < n ==> Completes(worlds(pending[j].companyId))
  {
    if n > 0 {
      AllCompleteMeans(pending, n - 1, worlds);
    }
  }

  /** The outcomes of a loop that stopped after `n` companies: all true
      when `ok`, otherwise all but the last. */
  function OutcomesOf(n: nat, ok: bool): (outcomes: seq<bool>)
    ensures |outcomes| == n
    ensures forall j :: 0 <= j < n ==> (outcomes[j] <==> ok || j < n - 1)
  {
    seq(n, j => ok || j < n - 1)
  }

  /** When the loop stops after `n` companies, all of them completed (`ok`)
      or all but the last did, so each reported outcome is whether that
      company's backfill completed. */
  lemma OutcomesMatch(pending: seq<CompanyRepository.Company>, n: nat, worlds: string -> BackfillWorld, ok: bool)
    requires n <= |pending|
    requires ok ==> AllComplete(pending, n, worlds)
    requires !ok ==> 0 < n && AllComplete(pending, n - 1, worlds) && !AllComplete(pending, n, worlds)
    ensures var attempted, outcomes := IdsOf(pending, n), OutcomesOf(n, ok);
      (forall i :: 0 <= i < |outcomes| ==> (outcomes[i] <==> Completes(worlds(attempted[i]))))
      && (forall i :: 0 <= i < |outcomes| - 1 ==> outcomes[i])
      && (ok ==> forall i :: 0 <= i < |outcomes| ==> outcomes[i])
      && (!ok ==> |outcomes| > 0 && !outcomes[|outcomes| - 1])
  {
    if ok {
      AllCompleteMeans(pending, n, worlds);
    } else {
      AllCompleteMeans(pending, n - 1, worlds);
    }
  }

  /** The company ids of the first `n` pending companies. */
  function IdsOf(pending: seq<CompanyRepository.Company>, n: nat): (ids: seq<string>)
    requires n <= |pending|
    ensures |ids| == n && forall j :: 0 <= j < n ==> ids[j] == pending[j].companyId
  {
    seq(n, j requires 0 <= j < n => pending[j].companyId)
  }

  /** One pass of the loop over companies: the `i`-th pending company's
      backfill, reading `clock(i)`, carries both folds one company further. */
  method BackfillStep(
    pending: seq<CompanyRepository.Company>, i: nat, worlds: string -> BackfillWorld, clock: nat -> int, calcs: Calculators,
    metrics: MetricsRepository.MetricsStore, companies: CompanyRepository.CompanyStore,
    ghost metrics0: seq<MetricsRepository.MetricsDoc>, ghost companies0: seq<CompanyRepository.Company>)
    returns (success: bool)
    requires i < |pending|
    requires metrics.docs == MetricsAfterEach(metrics0, pending, i, worlds, clock, calcs)
    requires companies.docs == CompaniesAfterEach(companies0, pending, i, worlds, clock)
    modifies metrics, companies
    ensures success <==> Completes(worlds(pending[i].companyId))
    ensures AllComplete(pending, i, worlds) ==> (success <==> AllComplete(pending, i + 1, worlds))
    ensures metrics.docs == MetricsAfterEach(metrics0, pending, i + 1, worlds, clock, calcs)
    ensures companies.docs == CompaniesAfterEach(companies0, pending, i + 1, worlds, clock)
  {
    var id := pending[i].companyId;
    success := BackfillOne(id, worlds(id), clock(i), calcs, metrics, companies);
  }

  /** The loop of `backfillAllCompaniesNeedingHistory` over a fixed list:
      each company in order, stopping at the first failure. Each backfill
      reads the clock anew: the `i`-th reads `clock(i)`. It returns how many
      companies it attempted and whether all succeeded. */
  method BackfillLoop(
    pending: seq<CompanyRepository.Company>, worlds: string -> BackfillWorld, clock: nat -> int, calcs: Calculators,
    metrics: MetricsRepository.MetricsStore, companies: CompanyRepository.CompanyStore)
    returns (ok: bool, n: nat)
    modifies metrics, companies
    ensures n <= |pending|
    ensures ok ==> n == |pending| && AllComplete(pending, n, worlds)
    ensures !ok ==> 0 < n && AllComplete(pending, n - 1, worlds) && !AllComplete(pending, n, worlds)
    ensures metrics.docs == MetricsAfterEach(old(metrics.docs), pending, n, worlds, clock, calcs)
    ensures companies.docs == CompaniesAfterEach(old(companies.docs), pending, n, worlds, clock)
  {
    ok, n := true, 0;
    ghost var completed := 0;
    while ok && n < |pending|
      invariant completed <= n <= |pending|
      invariant AllComplete(pending, completed, worlds)
      invariant ok ==> completed == n
      invariant !ok ==> completed + 1 == n && !AllComplete(pending, n, worlds)
      invariant metrics.docs == MetricsAfterEach(old(metrics.docs), pending, n, worlds, clock, calcs)
      invariant companies.docs == CompaniesAfterEach(old(companies.docs), pending, n, worlds, clock)
    {
      ok := BackfillStep(pending, n, worlds, clock, calcs, metrics, companies, old(metrics.docs), old(companies.docs));
      n := n + 1;
      if ok {
        completed := n;
      }
    }
  }

  /** The same loop, reporting the ids attempted and each outcome. */
  method BackfillEach(
    pending: seq<CompanyRepository.Company>, worlds: string -> BackfillWorld, clock: nat -> int, calcs: Calculators,
    metrics: MetricsRepository.MetricsStore, companies: CompanyRepository.CompanyStore)
    returns (ok: bool, attempted: seq<string>, outcomes: seq<bool>)
    modifies metrics, companies
    ensures |attempted| == |outcomes| <= |pending|
    ensures forall i :: 0 <= i < |attempted| ==> attempted[i] == pending[i].companyId
    ensures forall i :: 0 <= i < |outcomes| ==> (outcomes[i] <==> Completes(worlds(attempted[i])))
    ensures forall i :: 0 <= i < |outcomes| - 1 ==> outcomes[i]
    ensures ok <==> |attempted| == |pending| && forall i :: 0 <= i < |outcomes| ==> outcomes[i]
    ensures !ok ==> |outcomes| > 0 && !outcomes[|outcomes| - 1]
    ensures |attempted| <= |pending|
      && metrics.docs == MetricsAfterEach(old(metrics.docs), pending, |attempted|, worlds, clock, calcs)
      && companies.docs == CompaniesAfterEach(old(companies.docs), pending, |attempted|, worlds, clock)
  {
    var n;
    ok, n := BackfillLoop(pending, worlds, clock, calcs, metrics, companies);
    attempted := IdsOf(pending, n);
    outcomes := OutcomesOf(n, ok);
    OutcomesMatch(pending, n, worlds, ok);
  }

  /** `backfillAllCompaniesNeedingHistory`: the companies still needing a
      backfill when it starts, in order, stopping at the first failure.
      `worlds` gives the outside world each company's backfill meets, and
      `clock` the time each reads. */
  method BackfillAllCompaniesNeedingHistory(
    worlds: string -> BackfillWorld, clock: nat -> int, calcs: Calculators,
    metrics: MetricsRepository.MetricsStore, companies: CompanyRepository.CompanyStore)
    returns (ok: bool, attempted: seq<string>, outcomes: seq<bool>)
    modifies metrics, companies
    ensures var pending := CompanyRepository.GetCompaniesNeedingBackfill(old(companies.docs));
      |attempted| == |outcomes| <= |pending|
      && (forall i :: 0 <= i < |attempted| ==> attempted[i] == pending[i].companyId)
      && (ok <==> |attempted| == |pending| && forall i :: 0 <= i < |outcomes| ==> outcomes[i])
      && metrics.docs == MetricsAfterEach(old(metrics.docs), pending, |attempted|, worlds, clock, calcs)
      && companies.docs == CompaniesAfterEach(old(companies.docs), pending, |attempted|, worlds, clock)
    ensures forall i :: 0 <= i < |outcomes| ==> (outcomes[i] <==> Completes(worlds(attempted[i])))
    ensures forall i :: 0 <= i < |outcomes| - 1 ==> outcomes[i]
    ensures !ok ==> |outcomes| > 0 && !outcomes[|outcomes| - 1]
    ensures forall i :: 0 <= i < |outcomes| && outcomes[i] ==> CompanyRepository.Marked(companies.docs, attempted[i])
    ensures !ok ==> exists c :: c in CompanyRepository.GetCompaniesNeedingBackfill(companies.docs)
                                && c.companyId == attempted[|attempted| - 1]
    ensures |CompanyRepository.GetCompaniesNeedingBackfill(old(companies.docs))| == 0 ==>
      ok && attempted == [] && metrics.docs == old(metrics.docs) && companies.docs == old(companies.docs)
  {
    var pending := CompanyRepository.GetCompaniesNeedingBackfill(companies.docs);
    if |pending| == 0 {
      return true, [], [];
    }
    ok, attempted, outcomes := BackfillEach(pending, worlds, clock, calcs, metrics, companies);
    OutcomesInStore(old(companies.docs), worlds, clock, ok, attempted, outcomes);
  }

  // ---------------------------------------------------------------------------
  // The mark as written.
  /** As written, `markBackfillCompleted` is not a method of the company
      repository, so the mark throws whenever it is reached: such a backfill
      keeps its snapshot writes (the last pass's body on today's document),
      reports failure and leaves the company's flag as it found it. */
  lemma MarkThrowsKeepsWrites(
    mdocs: seq<MetricsRepository.MetricsDoc>, cdocs: seq<CompanyRepository.Company>,
    companyId: string, w: BackfillWorld, now: int, calcs: Calculators)
    requires w.markFails
    ensures !Completes(w)
    ensures FetchSucceeds(w) && !w.registerFails && !StoreFails(w) ==>
      MetricsAfter(mdocs, companyId, w, now, calcs)
        == MetricsRepository.UpsertDocs(mdocs, companyId, UtcMidnightMs(now * MsPerSecond), now * MsPerSecond,
             DayBody(FetchedOf(w), now, 0, calcs))
    ensures CompanyRepository.Marked(CompaniesAfter(cdocs, companyId, w, now * MsPerSecond, Completes(w)), companyId)
        == CompanyRepository.Marked(cdocs, companyId)
  {
    if w.company.Some? && !w.registerFails {
      var info := CompanyInfoOf(w.company.value, companyId);
      var after := CompanyRepository.RegisterDocs(cdocs, w.company.value.id, info, now * MsPerSecond);
      CompanyRepository.RegisterKeepsDocs(cdocs, w.company.value.id, info, now * MsPerSecond);
      if CompanyRepository.FirstWithId(cdocs, companyId) < |cdocs| {
        CompanyRepository.FirstWithIdKept(cdocs, after, companyId);
      } else {
        var i := CompanyRepository.FirstWithId(after, companyId);
        if i < |after| {
          assert !after[i].backfillCompleted;
        }
      }
    }
  }
}
