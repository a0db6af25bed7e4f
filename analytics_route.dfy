/** The analytics route: fetch a company's memberships, plans and payments
    through the SDK helpers, enrich the memberships and answer with MRR, ARR,
    ARPU, the subscriber figures, the trial, lifetime-value and payment
    summaries and the plan list. Also the computation the cached route
    repeats on a cache miss. */
module AnalyticsRoute {
  import opened Common
  import opened Records
  import opened Mrr
  import opened Subscribers
  import opened Enrichment
  import opened Snapshots
  import opened PlanCatalog
  import Ingestion
  import Backfill

  /** What the three SDK helpers yield (`None` when the iteration throws). */
  datatype SdkWorld = SdkWorld(
    memberships: Option<seq<Ingestion.SdkMembership>>,
    plans: Option<seq<Ingestion.SdkPlan>>,
    payments: Option<seq<Ingestion.SdkPayment>>)

  predicate FetchSucceeds(w: SdkWorld)
  {
    w.memberships.Some? && w.plans.Some? && w.payments.Some?
  }

  function MappedMemberships(yielded: seq<Ingestion.SdkMembership>): seq<Membership>
  {
    seq(|yielded|, i requires 0 <= i < |yielded| => Ingestion.MapMembership(yielded[i]))
  }

  function MappedPlans(yielded: seq<Ingestion.SdkPlan>): seq<Plan>
  {
    seq(|yielded|, i requires 0 <= i < |yielded| => Ingestion.MapPlan(yielded[i]))
  }

  function MappedPayments(yielded: seq<Ingestion.SdkPayment>): seq<Payment>
  {
    seq(|yielded|, i requires 0 <= i < |yielded| => Ingestion.MapPayment(yielded[i]))
  }

  /** The figures of an analytics response (its `timestamp` aside). */
  datatype Analytics = Analytics(
    mrr: MrrData,
    arr: JsNumber,
    arpu: JsNumber,
    subscribers: SubscriberMetrics,
    activeUniqueSubscribers: int,
    summary: SummarySections,
    plans: seq<PlanEntry>)

  /** The trial, lifetime-value, cash-flow, payment and refund sections. */
  function SummaryOf(calcs: Calculators, enriched: seq<Membership>, payments: seq<Payment>): SummarySections
  {
    SummarySections(TrialsOf(calcs.trials(enriched)), ClvOf(calcs.clv(enriched)), CashFlowOf(calcs.cashFlow(payments)),
                    PaymentsOf(calcs.payments(payments)), RefundsOf(calcs.refunds(payments)))
  }

  /** The response figures for the fetched lists at time `now` (seconds). */
  function AnalyticsOf(ms: seq<Membership>, plans: seq<Plan>, payments: seq<Payment>, now: int, calcs: Calculators): Analytics
  {
    var enriched := Enrich(ms, PlanIndex(plans));
    var mrr := Backfill.MrrOf(enriched, now);
    var activeUnique := GetActiveUniqueSubscribers(enriched, now);
    Analytics(mrr, CalculateARR(mrr.total), CalculateARPU(mrr.total, activeUnique), Backfill.SubscribersOf(enriched, now),
              activeUnique, SummaryOf(calcs, enriched, payments), Catalog(plans))
  }

  /** What the response promises: ARR is twelve times the MRR total returned
      and ARPU divides that same total; MRR and the subscriber figures are
      those of the enriched memberships; the active unique subscribers are at
      most the active bucket; the plan list is the de-duplicated titled plans. */
  lemma AnalyticsFacts(ms: seq<Membership>, plans: seq<Plan>, payments: seq<Payment>, now: int, calcs: Calculators)
    ensures var a := AnalyticsOf(ms, plans, payments, now, calcs);
      var enriched := Enrich(ms, PlanIndex(plans));
      a.arr == CalculateARR(a.mrr.total) && a.arpu == CalculateARPU(a.mrr.total, a.activeUniqueSubscribers)
      && a.mrr.total == MrrSum(enriched, now)
      && a.subscribers.total == a.subscribers.active + a.subscribers.cancelled + a.subscribers.past_due + a.subscribers.trialing
      && a.activeUniqueSubscribers <= a.subscribers.active
      && a.plans == Catalog(plans) && DistinctIds(a.plans)
  {
    CatalogDistinct(plans);
  }

  /** Steps after the fetches: enrich, run the calculators and build the
      plan list. */
  method ComputeAnalytics(allMemberships: seq<Membership>, allPlans: seq<Plan>, payments: seq<Payment>, now: int, calcs: Calculators)
    returns (a: Analytics)
    ensures a == AnalyticsOf(allMemberships, allPlans, payments, now, calcs)
  {
    var planMap := BuildPlanMap(allPlans);
    var enriched := Enrich(allMemberships, planMap);
    var mrrData := CalculateMRR(enriched, now);
    var subscriberMetrics := CalculateSubscriberMetrics(enriched, now);
    var activeUniqueSubscribers := GetActiveUniqueSubscribers(enriched, now);
    var uniquePlans := UniquePlans(allPlans);
    a := Analytics(mrrData, CalculateARR(mrrData.total), CalculateARPU(mrrData.total, activeUniqueSubscribers),
                   subscriberMetrics, activeUniqueSubscribers, SummaryOf(calcs, enriched, payments), uniquePlans);
  }

  /** The three SDK fetches, in order; `None` when one throws. */
  method FetchAll(w: SdkWorld) returns (r: Option<(seq<Membership>, seq<Plan>, seq<Payment>)>)
    ensures r.Some? <==> FetchSucceeds(w)
    ensures r.Some? ==> r.value == (MappedMemberships(w.memberships.value), MappedPlans(w.plans.value),
                                    MappedPayments(w.payments.value))
  {
    if w.memberships.None? {
      return None;
    }
    var allMemberships := Ingestion.GetAllMemberships(w.memberships.value);
    if w.plans.None? {
      return None;
    }
    var allPlans := Ingestion.GetAllPlans(w.plans.value);
    if w.payments.None? {
      return None;
    }
    var payments := Ingestion.GetAllPayments(w.payments.value);
    assert allMemberships == MappedMemberships(w.memberships.value);
    assert allPlans == MappedPlans(w.plans.value);
    assert payments == MappedPayments(w.payments.value);
    r := Some((allMemberships, allPlans, payments));
  }

  datatype Response = BadRequest | ServerError | Ok(analytics: Analytics, timestamp: int)

  /** The `GET` handler at time `nowMs` (milliseconds): 400 without a company
      id, 500 when a fetch throws, else the figures. */
  method Get(companyId: Option<string>, w: SdkWorld, nowMs: int, calcs: Calculators) returns (r: Response)
    ensures !TruthyStr(companyId) ==> r == BadRequest
    ensures TruthyStr(companyId) && !FetchSucceeds(w) ==> r == ServerError
    ensures TruthyStr(companyId) && FetchSucceeds(w) ==>
      r == Ok(AnalyticsOf(MappedMemberships(w.memberships.value), MappedPlans(w.plans.value),
                          MappedPayments(w.payments.value), nowMs / MsPerSecond, calcs), nowMs)
  {
    if companyId.None? || companyId.value == "" {
      return BadRequest;
    }
    var fetched := FetchAll(w);
    if fetched.None? {
      return ServerError;
    }
    var (allMemberships, allPlans, payments) := fetched.value;
    var a := ComputeAnalytics(allMemberships, allPlans, payments, nowMs / MsPerSecond, calcs);
    r := Ok(a, nowMs);
  }
}
