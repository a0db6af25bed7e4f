/** The manual daily snapshot (`POST`): fetch the company's memberships,
    plans and payments, store them as the raw data of the company's
    `company_metrics` document, compute today's entry from all of them and
    upsert it into the history. Times of the request are milliseconds; Whop
    times are seconds. */
module ManualDaily {
  import opened Common
  import opened Records
  import opened PointInTime
  import opened Mrr
  import opened Subscribers
  import opened Enrichment
  import opened Snapshots
  import opened CompanyMetricsRepository
  import Backfill
  import ManualHistorical

  /** Today's entry: every enriched membership and every payment, with no
      point-in-time filter, judged at `now` (seconds) and dated with the UTC
      day of `now`. */
  function TodaySnapshot(enriched: seq<Membership>, payments: seq<Payment>, now: int, calcs: Calculators): DailySnapshot
  {
    DailySnapshotOf(DayOf(now), Backfill.MrrOf(enriched, now), GetActiveUniqueSubscribers(enriched, now),
      Backfill.SubscribersOf(enriched, now), calcs.trials(enriched), calcs.clv(enriched), calcs.cashFlow(payments),
      calcs.payments(payments), calcs.refunds(payments), payments)
  }

  /** The columns of today's entry that the route derives itself. */
  lemma TodaySnapshotFacts(enriched: seq<Membership>, payments: seq<Payment>, now: int, calcs: Calculators)
    ensures var e := TodaySnapshot(enriched, payments, now, calcs);
      e.date == DayOf(now)
      && e.activeSubscribers == e.activeCustomers == GetActiveUniqueSubscribers(enriched, now)
      && e.mrr == MrrSum(enriched, now)
      && 0.0 <= e.customerChurnRate <= 100.0
      && e.revenue == TotalRevenue(payments)
      && (calcs.payments(payments).totalPayments <= 0 ==> e.avgSalePrice == 0.0)
  {
    CancellationRateBounded(Backfill.SubscribersOf(enriched, now));
  }

  /** When every membership still exists at `now` and every payment has been
      paid by then, today's entry is the entry the manual historical backfill
      writes for `daysAgo` = 0, the last of its series. */
  lemma {:induction false} TodayMatchesHistorical(enriched: seq<Membership>, payments: seq<Payment>, now: int, calcs: Calculators)
    requires forall m :: m in enriched ==> ExistedAt(m, now)
    requires forall p :: p in payments ==> PaidBy(p, now)
    ensures TodaySnapshot(enriched, payments, now, calcs)
         == ManualHistorical.HistorySeries(enriched, payments, now, calcs)[ManualHistorical.HistoryDays - 1]
  {
    FilterAll(enriched, ExistedAtTime(now));
    FilterAll(payments, PaidByTime(now));
    assert ManualHistorical.SnapshotTime(now, 0) == now;
    ManualHistorical.SeriesAt(enriched, payments, now, calcs, 365);
  }

  // ---------------------------------------------------------------------------
  // The route.

  datatype Stats = Stats(memberships: nat, payments: nat, plans: nat)

  /** 400 without a company id, 500 when a fetch or a store write throws. */
  datatype Response = BadRequest | ServerError | Completed(snapshot: DailySnapshot, stats: Stats)

  /** The store write that throws: 0 `storeRawData`, 1 `upsertDailySnapshot`. */
  predicate AnyWriteFails(failingWrite: Option<nat>)
  {
    failingWrite.Some? && failingWrite.value < 2
  }

  function SnapshotOf(api: ManualHistorical.WhopApi, nowMs: int, calcs: Calculators): DailySnapshot
    requires ManualHistorical.FetchSucceeds(api)
  {
    TodaySnapshot(Enrich(api.memberships.value, PlanIndex(api.plans.value)), api.payments.value, nowMs / MsPerSecond, calcs)
  }

  function ResponseOf(companyId: Option<string>, api: ManualHistorical.WhopApi, failingWrite: Option<nat>, nowMs: int, calcs: Calculators)
    : Response
  {
    if !TruthyStr(companyId) then BadRequest
    else if !ManualHistorical.FetchSucceeds(api) || AnyWriteFails(failingWrite) then ServerError
    else
      Completed(SnapshotOf(api, nowMs, calcs), Stats(|api.memberships.value|, |api.payments.value|, |api.plans.value|))
  }

  /** The two store writes of a completed fetch: the raw data stored, then
      today's entry upserted, each only if those before it succeeded. */
  function WritesAfter(docs: Docs, id: string, raw: RawData, snapshot: DailySnapshot, failingWrite: Option<nat>, nowMs: int)
    : Docs
  {
    if ManualHistorical.WriteFails(failingWrite, 0) then docs
    else
      var stored := StoreRawDataDocs(docs, id, raw, nowMs);
      if ManualHistorical.WriteFails(failingWrite, 1) then stored
      else UpsertDailyDocs(stored, id, snapshot, nowMs)
  }

  function DocsAfter(docs: Docs, companyId: Option<string>, api: ManualHistorical.WhopApi, failingWrite: Option<nat>, nowMs: int, calcs: Calculators)
    : Docs
  {
    if !TruthyStr(companyId) || !ManualHistorical.FetchSucceeds(api) then docs
    else
      var id := companyId.value;
      WritesAfter(docs, id, ManualHistorical.StoredRawData(id, api.memberships.value, api.plans.value, api.payments.value),
                  SnapshotOf(api, nowMs, calcs), failingWrite, nowMs)
  }

  /** When both writes succeed, the entry written is the company's snapshot
      of its date and the raw data is the one stored. */
  lemma CompletedWrites(docs: Docs, id: string, raw: RawData, snapshot: DailySnapshot, failingWrite: Option<nat>, nowMs: int)
    requires !AnyWriteFails(failingWrite)
    ensures var after := WritesAfter(docs, id, raw, snapshot, failingWrite, nowMs);
      GetTodaySnapshot(after, id, snapshot.date) == Some(snapshot)
      && id in after && after[id].rawData == Some(raw)
  {
    var stored := StoreRawDataDocs(docs, id, raw, nowMs);
    UpsertThenToday(stored, id, snapshot, nowMs);
    UpsertKeepsRawData(stored, id, snapshot, nowMs);
  }

  /** The upsert leaves the raw data of the document alone. */
  lemma UpsertKeepsRawData(docs: Docs, id: string, s: DailySnapshot, nowMs: int)
    requires id in docs
    ensures id in UpsertDailyDocs(docs, id, s, nowMs)
    ensures UpsertDailyDocs(docs, id, s, nowMs)[id].rawData == docs[id].rawData
  {
  }

  /** When a write throws, no history changes: the raw data write never
      touches one. */
  lemma FailedWritesKeepHistory(docs: Docs, id: string, raw: RawData, snapshot: DailySnapshot, failingWrite: Option<nat>, nowMs: int, c: string)
    requires AnyWriteFails(failingWrite)
    ensures HistoryOf(WritesAfter(docs, id, raw, snapshot, failingWrite, nowMs), c) == HistoryOf(docs, c)
  {
  }

  /** A completed request is one with a company id, all three fetches and
      both writes succeeding; its snapshot is dated today. */
  lemma CompletedMeansSucceeded(companyId: Option<string>, api: ManualHistorical.WhopApi, failingWrite: Option<nat>, nowMs: int, calcs: Calculators)
    ensures ResponseOf(companyId, api, failingWrite, nowMs, calcs).Completed?
        <==> TruthyStr(companyId) && ManualHistorical.FetchSucceeds(api) && !AnyWriteFails(failingWrite)
    ensures ResponseOf(companyId, api, failingWrite, nowMs, calcs).Completed? ==>
      ResponseOf(companyId, api, failingWrite, nowMs, calcs).snapshot.date == DayOf(nowMs / MsPerSecond)
  {
    if ResponseOf(companyId, api, failingWrite, nowMs, calcs).Completed? {
      TodaySnapshotFacts(Enrich(api.memberships.value, PlanIndex(api.plans.value)), api.payments.value, nowMs / MsPerSecond, calcs);
    }
  }

  /** After a completed request, today's snapshot of the company is the one
      the response reports, and the raw data is what was fetched. */
  lemma CompletedRunToday(docs: Docs, companyId: Option<string>, api: ManualHistorical.WhopApi, failingWrite: Option<nat>, nowMs: int, calcs: Calculators)
    requires TruthyStr(companyId) && ManualHistorical.FetchSucceeds(api) && !AnyWriteFails(failingWrite)
    ensures var after := DocsAfter(docs, companyId, api, failingWrite, nowMs, calcs);
      GetTodaySnapshot(after, companyId.value, DayOf(nowMs / MsPerSecond)) == Some(SnapshotOf(api, nowMs, calcs))
      && companyId.value in after
      && after[companyId.value].rawData
         == Some(ManualHistorical.StoredRawData(companyId.value, api.memberships.value, api.plans.value, api.payments.value))
  {
    var id := companyId.value;
    var raw := ManualHistorical.StoredRawData(id, api.memberships.value, api.plans.value, api.payments.value);
    var s := SnapshotOf(api, nowMs, calcs);
    TodaySnapshotFacts(Enrich(api.memberships.value, PlanIndex(api.plans.value)), api.payments.value, nowMs / MsPerSecond, calcs);
    CompletedWrites(docs, id, raw, s, failingWrite, nowMs);
  }

  /** A request that does not complete leaves every history as it was. */
  lemma FailureKeepsHistory(docs: Docs, companyId: Option<string>, api: ManualHistorical.WhopApi, failingWrite: Option<nat>, nowMs: int, calcs: Calculators, c: string)
    requires !TruthyStr(companyId) || !ManualHistorical.FetchSucceeds(api) || AnyWriteFails(failingWrite)
    ensures HistoryOf(DocsAfter(docs, companyId, api, failingWrite, nowMs, calcs), c) == HistoryOf(docs, c)
  {
    if TruthyStr(companyId) && ManualHistorical.FetchSucceeds(api) {
      var id := companyId.value;
      FailedWritesKeepHistory(docs, id, ManualHistorical.StoredRawData(id, api.memberships.value, api.plans.value, api.payments.value),
                              SnapshotOf(api, nowMs, calcs), failingWrite, nowMs, c);
    }
  }

  /** With the REST client these routes import, the plans fetch throws: the
      request never completes and writes nothing. */
  lemma RestClientNeverCompletes(docs: Docs, companyId: Option<string>, ms: Option<seq<Membership>>, failingWrite: Option<nat>, nowMs: int, calcs: Calculators)
    ensures !ResponseOf(companyId, ManualHistorical.RestClient(ms), failingWrite, nowMs, calcs).Completed?
    ensures DocsAfter(docs, companyId, ManualHistorical.RestClient(ms), failingWrite, nowMs, calcs) == docs
  {
  }

  /** Today's metrics: the plan map, the enriched memberships and the entry
      built from them. */
  method CalculateToday(allMemberships: seq<Membership>, allPlans: seq<Plan>, payments: seq<Payment>, now: int, calcs: Calculators)
    returns (todaySnapshot: DailySnapshot)
    ensures todaySnapshot == TodaySnapshot(Enrich(allMemberships, PlanIndex(allPlans)), payments, now, calcs)
  {
    var planMap := BuildPlanMap(allPlans);
    var enrichedMemberships := Enrich(allMemberships, planMap);
    todaySnapshot := TodaySnapshot(enrichedMemberships, payments, now, calcs);
  }

  /** The two store writes, in order; the first that throws ends the request
      with the write before it in place. */
  method WriteAll(id: string, raw: RawData, snapshot: DailySnapshot, failingWrite: Option<nat>, nowMs: int, store: CompanyMetricsStore)
    returns (ok: bool)
    modifies store
    ensures ok == !AnyWriteFails(failingWrite)
    ensures store.docs == WritesAfter(old(store.docs), id, raw, snapshot, failingWrite, nowMs)
  {
    if ManualHistorical.WriteFails(failingWrite, 0) {
      return false;
    }
    store.StoreRawData(id, raw, nowMs);
    if ManualHistorical.WriteFails(failingWrite, 1) {
      return false;
    }
    store.UpsertDailySnapshot(id, snapshot, nowMs);
    ok := true;
  }

  /** The `POST` handler. A body that cannot be read is a `500` with no
      reads or writes. */
  method Post(
    body: ManualHistorical.RequestBody, api: ManualHistorical.WhopApi, failingWrite: Option<nat>, nowMs: int, calcs: Calculators,
    store: CompanyMetricsStore)
    returns (r: Response)
    modifies store
    ensures body.Malformed? ==> r == ServerError && store.docs == old(store.docs)
    ensures body.Body? ==> r == ResponseOf(body.companyId, api, failingWrite, nowMs, calcs)
    ensures body.Body? ==> store.docs == DocsAfter(old(store.docs), body.companyId, api, failingWrite, nowMs, calcs)
  {
    if body.Malformed? {
      return ServerError;
    }
    var companyId := body.companyId;
    if companyId.None? || companyId.value == "" {
      return BadRequest;
    }
    var id := companyId.value;
    if api.memberships.None? || api.plans.None? || api.payments.None? {
      return ServerError;
    }
    var allMemberships, allPlans, payments := api.memberships.value, api.plans.value, api.payments.value;
    var todaySnapshot := CalculateToday(allMemberships, allPlans, payments, nowMs / MsPerSecond, calcs);
    var ok := WriteAll(id, ManualHistorical.StoredRawData(id, allMemberships, allPlans, payments), todaySnapshot, failingWrite, nowMs, store);
    if !ok {
      return ServerError;
    }
    r := Completed(todaySnapshot, Stats(|allMemberships|, |payments|, |allPlans|));
  }
}
