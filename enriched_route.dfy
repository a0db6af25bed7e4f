/** The cached analytics route: serve the latest stored snapshot that has raw
    data when it is younger than ten minutes and no refresh is forced;
    otherwise compute the analytics afresh and write them back as today's
    snapshot, ignoring a failure of that write. Times are milliseconds. */
module EnrichedRoute {
  import opened Common
  import opened Records
  import opened Enrichment
  import opened Snapshots
  import opened PlanCatalog
  import AnalyticsRoute
  import MetricsRepository
  import SnapshotService
  import Backfill

  /** `CACHE_TTL_MS`: ten minutes. */
  const CacheTtlMs: int := 10 * 60 * 1000

  /** The cached snapshot is served: no forced refresh, one exists, and its
      age is strictly below the time to live. */
  predicate ServesCache(forceRefresh: bool, cached: Option<MetricsRepository.MetricsDoc>, nowMs: int)
  {
    !forceRefresh && cached.Some? && nowMs - cached.value.timestamp < CacheTtlMs
  }

  /** The sections a cache hit shows when the stored raw data has none. */
  const ZeroSummary: SummarySections := SummarySections(
    TrialsSection(0, 0, 0, 0.0), ClvSection(0.0, 0.0, 0), CashFlowSection(0.0, 0.0, 0.0, 0.0),
    PaymentsSection(0, 0, 0, 0.0), RefundsSection(0, 0.0, 0.0))

  /** The figures of a cache hit: those stored, the plan list rebuilt from the
      stored plans (`rawData?.plans || []`) and the stored sections or zeros. */
  function CachedAnalytics(d: MetricsRepository.MetricsDoc): AnalyticsRoute.Analytics
  {
    var raw := d.body.rawData;
    AnalyticsRoute.Analytics(
      d.body.mrr, d.body.arr, d.body.arpu, d.body.subscribers, d.body.activeUniqueSubscribers,
      if raw.Some? && raw.value.summary.Some? then raw.value.summary.value else ZeroSummary,
      Catalog(if raw.Some? then raw.value.plans else []))
  }

  /** `Math.round(ms / 1000)`: halves round up. */
  function RoundedSeconds(ms: int): (r: int)
    ensures r * 1000 - 500 <= ms < r * 1000 + 500
  {
    (ms + 500) / 1000
  }

  /** What the cache write `$set`s: the response figures, the metadata, and raw
      data holding only the plans and the summary sections. */
  function CacheBody(a: AnalyticsRoute.Analytics, ms: seq<Membership>, plans: seq<Plan>, now: int): MetricsBody
  {
    MetricsBody(
      mrr := a.mrr,
      arr := a.arr,
      arpu := a.arpu,
      subscribers := a.subscribers,
      activeUniqueSubscribers := a.activeUniqueSubscribers,
      metadata := Metadata(|ms|, |Filter(Enrich(ms, PlanIndex(plans)), SnapshotService.ActiveMembershipAt(now))|, |plans|),
      rawData := Some(RawData(None, None, plans, None, Some(a.summary))),
      sections := None)
  }

  /** The cache read undoes the cache write: a request within ten minutes of
      a fresh computation, with no snapshot of the company dated after today
      and nothing written in between, is served from the cache and shows the
      same figures. */
  lemma CacheRoundTrip(
    docs: seq<MetricsRepository.MetricsDoc>, companyId: string, nowMs: int, later: int,
    a: AnalyticsRoute.Analytics, ms: seq<Membership>, plans: seq<Plan>, now: int)
    requires a.plans == Catalog(plans)
    requires nowMs <= later < nowMs + CacheTtlMs
    requires forall d :: d in docs && d.companyId == companyId && d.body.rawData.Some? ==> d.date <= UtcMidnightMs(nowMs)
    ensures var written := MetricsRepository.UpsertDocs(docs, companyId, UtcMidnightMs(nowMs), nowMs, CacheBody(a, ms, plans, now));
      var hit := MetricsRepository.LatestSnapshotWithRawData(written, companyId);
      ServesCache(false, hit, later) && CachedAnalytics(hit.value) == a
  {
    var body := CacheBody(a, ms, plans, now);
    MetricsRepository.LatestAfterUpsert(docs, companyId, UtcMidnightMs(nowMs), nowMs, body);
    MetricsRepository.UpsertDocsEffect(docs, companyId, UtcMidnightMs(nowMs), nowMs, body);
  }

  /** A snapshot capture later the same day replaces the whole raw data: the
      next cache hit shows zero trial, lifetime-value, cash-flow, payment and
      refund sections, and the plan list of the capture's plans. */
  lemma CaptureClearsCachedSections(
    docs: seq<MetricsRepository.MetricsDoc>, companyId: string, cacheMs: int, captureMs: int, later: int,
    a: AnalyticsRoute.Analytics, ms: seq<Membership>, plans: seq<Plan>, now: int,
    company: Backfill.WhopCompany, capturedMs: seq<Membership>, capturedPlans: seq<Plan>, txs: seq<Payment>, captureNow: int)
    requires UtcMidnightMs(cacheMs) == UtcMidnightMs(captureMs)
    requires captureMs <= later < captureMs + CacheTtlMs
    requires forall d :: d in docs && d.companyId == companyId && d.body.rawData.Some? ==> d.date <= UtcMidnightMs(cacheMs)
    ensures var day := UtcMidnightMs(cacheMs);
      var cached := MetricsRepository.UpsertDocs(docs, companyId, day, cacheMs, CacheBody(a, ms, plans, now));
      var captured := MetricsRepository.UpsertDocs(cached, companyId, day, captureMs,
        SnapshotService.CaptureBody(company, capturedMs, capturedPlans, txs, captureNow));
      var hit := MetricsRepository.LatestSnapshotWithRawData(captured, companyId);
      ServesCache(false, hit, later)
      && CachedAnalytics(hit.value).summary == ZeroSummary
      && CachedAnalytics(hit.value).plans == Catalog(capturedPlans)
  {
    var day := UtcMidnightMs(cacheMs);
    var body := CacheBody(a, ms, plans, now);
    var cached := MetricsRepository.UpsertDocs(docs, companyId, day, cacheMs, body);
    var capture := SnapshotService.CaptureBody(company, capturedMs, capturedPlans, txs, captureNow);
    MetricsRepository.UpsertDocsMembers(docs, companyId, day, cacheMs, body);
    MetricsRepository.LatestAfterUpsert(cached, companyId, day, captureMs, capture);
    MetricsRepository.UpsertDocsEffect(cached, companyId, day, captureMs, capture);
  }

  datatype Response =
    | BadRequest
    | ServerError
    | Ok(analytics: AnalyticsRoute.Analytics, timestamp: int, cached: bool, cacheAge: Option<int>)

  /** The response of a cache hit on `d` at `nowMs`. */
  function HitResponse(d: MetricsRepository.MetricsDoc, nowMs: int): Response
  {
    Ok(CachedAnalytics(d), d.timestamp, true, Some(RoundedSeconds(nowMs - d.timestamp)))
  }

  /** The `GET` handler: 400 without a company id; a cache hit without any
      fetch or write; otherwise the fetches (500 when one throws), the fresh
      figures, and the cache write, whose failure (`cacheWriteFails`) changes
      nothing but the store. */
  method Get(
    companyId: Option<string>, forceRefresh: bool, w: AnalyticsRoute.SdkWorld, cacheWriteFails: bool, nowMs: int, calcs: Calculators,
    metrics: MetricsRepository.MetricsStore)
    returns (r: Response)
    modifies metrics
    ensures !TruthyStr(companyId) ==> r == BadRequest && metrics.docs == old(metrics.docs)
    ensures TruthyStr(companyId) ==>
      var cachedDoc := if forceRefresh then None else MetricsRepository.LatestSnapshotWithRawData(old(metrics.docs), companyId.value);
      if ServesCache(forceRefresh, cachedDoc, nowMs) then
        r == HitResponse(cachedDoc.value, nowMs) && metrics.docs == old(metrics.docs)
      else if !AnalyticsRoute.FetchSucceeds(w) then
        r == ServerError && metrics.docs == old(metrics.docs)
      else
        var ms, plans := AnalyticsRoute.MappedMemberships(w.memberships.value), AnalyticsRoute.MappedPlans(w.plans.value);
        var a := AnalyticsRoute.AnalyticsOf(ms, plans, AnalyticsRoute.MappedPayments(w.payments.value), nowMs / MsPerSecond, calcs);
        r == Ok(a, nowMs, false, None)
        && metrics.docs == if cacheWriteFails then old(metrics.docs)
           else MetricsRepository.UpsertDocs(old(metrics.docs), companyId.value, UtcMidnightMs(nowMs), nowMs,
                                             CacheBody(a, ms, plans, nowMs / MsPerSecond))
  {
    if companyId.None? || companyId.value == "" {
      return BadRequest;
    }
    var id := companyId.value;
    if !forceRefresh {
      var cachedSnapshot := MetricsRepository.LatestSnapshotWithRawData(metrics.docs, id);
      if cachedSnapshot.Some? {
        var cacheAge := nowMs - cachedSnapshot.value.timestamp;
        if cacheAge < CacheTtlMs {
          return HitResponse(cachedSnapshot.value, nowMs);
        }
      }
    }
    var fetched := AnalyticsRoute.FetchAll(w);
    if fetched.None? {
      return ServerError;
    }
    var (allMemberships, allPlans, payments) := fetched.value;
    var now := nowMs / MsPerSecond;
    var a := AnalyticsRoute.ComputeAnalytics(allMemberships, allPlans, payments, now, calcs);
    if !cacheWriteFails {
      metrics.UpsertDailySnapshot(id, CacheBody(a, allMemberships, allPlans, now), nowMs);
    }
    r := Ok(a, nowMs, false, None);
  }
}
