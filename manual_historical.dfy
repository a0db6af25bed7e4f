/** The manual historical backfill (`POST`): fetch the company's memberships,
    plans and payments, store them as the raw data of the company's
    `company_metrics` document, rebuild 366 daily history entries from them by
    point-in-time filtering, bulk-upsert the entries and mark the backfill
    complete. Times of the request are milliseconds; Whop times are seconds. */
module ManualHistorical {
  import opened Common
  import opened Records
  import opened PointInTime
  import opened Mrr
  import opened Subscribers
  import opened Enrichment
  import opened Snapshots
  import opened CompanyMetricsRepository
  import Backfill

  /** The request body as the handler reads it: `Malformed` when
      `request.json()` throws, or yields `null` so that reading `company_id`
      throws; otherwise the `company_id` property. */
  datatype RequestBody = Malformed | Body(companyId: Option<string>)

  /** What the Whop calls of the manual routes return; `None` when the call throws. */
  datatype WhopApi = WhopApi(memberships: Option<seq<Membership>>, plans: Option<seq<Plan>>, payments: Option<seq<Payment>>)

  predicate FetchSucceeds(api: WhopApi)
  {
    api.memberships.Some? && api.plans.Some? && api.payments.Some?
  }

  /** The REST client these routes import defines `getAllMemberships` alone:
      calling `getAllPlans` or `getAllPayments` on it throws. */
  function RestClient(memberships: Option<seq<Membership>>): WhopApi
  {
    WhopApi(memberships, None, None)
  }

  /** `allMemberships[0]?.company?.title || 'Company'`. */
  function CompanyTitle(ms: seq<Membership>): (title: string)
    ensures title != ""
    ensures title == "Company" || (|ms| > 0 && ms[0].company.Val? && ms[0].company.v.title == Val(title))
  {
    if |ms| > 0 && ms[0].company.Val? && ms[0].company.v.title.Val? && ms[0].company.v.title.v != "" then
      ms[0].company.v.title.v
    else
      "Company"
  }

  /** The raw data stored before the history is rebuilt: the company under its
      id with the title above and no images, and everything fetched. */
  function StoredRawData(companyId: string, ms: seq<Membership>, plans: seq<Plan>, payments: seq<Payment>): RawData
  {
    FetchedRawData(RawCompany(companyId, CompanyTitle(ms), None, None), ms, plans, payments)
  }

  // ---------------------------------------------------------------------------
  // The 366 history entries.

  /** `snapshotDate.getTime() / 1000`: `daysAgo` whole days before `now`
      (seconds). */
  function SnapshotTime(now: int, daysAgo: int): int
  {
    now - daysAgo * SecondsPerDay
  }

  /** The history entry of the instant `t` (seconds): memberships and payments
      filtered at `t`; the calculators judge activity at `now`. */
  function SnapshotAt(enriched: seq<Membership>, payments: seq<Payment>, now: int, t: int, calcs: Calculators): DailySnapshot
  {
    var ms := MembershipsOn(enriched, t);
    var ps := PaymentsOn(payments, t);
    DailySnapshotOf(DayOf(t), Backfill.MrrOf(ms, now), GetActiveUniqueSubscribers(ms, now), Backfill.SubscribersOf(ms, now),
      calcs.trials(ms), calcs.clv(ms), calcs.cashFlow(ps), calcs.payments(ps), calcs.refunds(ps), ps)
  }

  function HistoricalSnapshot(enriched: seq<Membership>, payments: seq<Payment>, now: int, daysAgo: int, calcs: Calculators)
    : DailySnapshot
  {
    SnapshotAt(enriched, payments, now, SnapshotTime(now, daysAgo), calcs)
  }

  /** The number of entries: `daysAgo` runs from 365 down to 0. */
  const HistoryDays: nat := 366

  /** The entry of each `daysAgo`. */
  function EntryOfDay(enriched: seq<Membership>, payments: seq<Payment>, now: int, calcs: Calculators): int -> DailySnapshot
  {
    daysAgo => HistoricalSnapshot(enriched, payments, now, daysAgo, calcs)
  }

  /** The first `n` entries pushed: those of `daysAgo` = 365 down to 366 - `n`. */
  function Pushed(entry: int -> DailySnapshot, n: nat): seq<DailySnapshot>
  {
    if n == 0 then [] else Pushed(entry, n - 1) + [entry(HistoryDays - n)]
  }

  /** The entries of `daysAgo` = 365 down to 0, in push order. */
  function HistorySeries(enriched: seq<Membership>, payments: seq<Payment>, now: int, calcs: Calculators): (s: seq<DailySnapshot>)
    ensures |s| == HistoryDays
  {
    PushedAt(EntryOfDay(enriched, payments, now, calcs), HistoryDays, 0);
    Pushed(EntryOfDay(enriched, payments, now, calcs), HistoryDays)
  }

  /** Entry `k` of the pushed entries is the one of `daysAgo` = 365 - `k`. */
  lemma {:induction false} PushedAt(entry: int -> DailySnapshot, n: nat, k: int)
    requires 0 <= k < n
    ensures |Pushed(entry, n)| == n
    ensures Pushed(entry, n)[k] == entry(HistoryDays - 1 - k)
  {
    if n > 1 {
      PushedAt(entry, n - 1, 0);
    }
    if k < n - 1 {
      PushedAt(entry, n - 1, k);
    }
  }

  /** Entry `k` of the series is the snapshot of its day. */
  lemma SeriesAt(enriched: seq<Membership>, payments: seq<Payment>, now: int, calcs: Calculators, k: int)
    requires 0 <= k < HistoryDays
    ensures |HistorySeries(enriched, payments, now, calcs)| == HistoryDays
    ensures HistorySeries(enriched, payments, now, calcs)[k] == SnapshotAt(enriched, payments, now, SnapshotTime(now, 365 - k), calcs)
  {
    var entry := EntryOfDay(enriched, payments, now, calcs);
    PushedAt(entry, HistoryDays, k);
    assert entry(HistoryDays - 1 - k) == HistoricalSnapshot(enriched, payments, now, 365 - k, calcs);
  }

  lemma DayOfShift(now: int, d: int)
    ensures DayOf(now - d * SecondsPerDay) == DayOf(now) - d
  {
    var q, r := now / SecondsPerDay, now % SecondsPerDay;
    assert now - d * SecondsPerDay == (q - d) * SecondsPerDay + r;
  }

  /** Entry `k` is dated 365 - `k` days before today. */
  lemma SeriesDate(enriched: seq<Membership>, payments: seq<Payment>, now: int, calcs: Calculators, k: int)
    requires 0 <= k < HistoryDays
    ensures HistorySeries(enriched, payments, now, calcs)[k].date == DayOf(now) - 365 + k
  {
    SeriesAt(enriched, payments, now, calcs, k);
    DayOfShift(now, 365 - k);
  }

  /** The series has 366 entries dated on consecutive days ending today, so
      its dates are strictly increasing and distinct. */
  lemma SeriesDates(enriched: seq<Membership>, payments: seq<Payment>, now: int, calcs: Calculators)
    ensures var s := HistorySeries(enriched, payments, now, calcs);
      |s| == 366 && forall k :: 0 <= k < 366 ==> s[k].date == DayOf(now) - 365 + k
  {
    forall k | 0 <= k < 366 {
      SeriesDate(enriched, payments, now, calcs, k);
    }
  }

  /** Each entry's figures: both subscriber columns hold the active unique
      subscribers of that day, the churn rate lies in [0, 100], and the
      revenue is the total of the paid payments made by then. */
  lemma SeriesEntryFacts(enriched: seq<Membership>, payments: seq<Payment>, now: int, calcs: Calculators, k: int)
    requires 0 <= k < 366
    ensures var e := HistorySeries(enriched, payments, now, calcs)[k];
      var t := SnapshotTime(now, 365 - k);
      var ms := MembershipsOn(enriched, t);
      e.activeSubscribers == e.activeCustomers == GetActiveUniqueSubscribers(ms, now)
      && e.mrr == MrrSum(ms, now)
      && 0.0 <= e.customerChurnRate <= 100.0
      && e.revenue == TotalRevenue(PaymentsOn(payments, t))
      && (calcs.payments(PaymentsOn(payments, t)).totalPayments <= 0 ==> e.avgSalePrice == 0.0)
  {
    var t := SnapshotTime(now, 365 - k);
    SeriesAt(enriched, payments, now, calcs, k);
    CancellationRateBounded(Backfill.SubscribersOf(MembershipsOn(enriched, t), now));
  }

  /** The revenue column is cumulative: with non-negative payment totals, no
      entry shows more revenue than a later one. */
  lemma RevenueNeverDecreases(enriched: seq<Membership>, payments: seq<Payment>, now: int, calcs: Calculators, i: int, j: int)
    requires 0 <= i <= j < 366
    requires forall p :: p in payments ==> p.total >= 0.0
    ensures var s := HistorySeries(enriched, payments, now, calcs);
      s[i].revenue <= s[j].revenue
  {
    var ti, tj := SnapshotTime(now, 365 - i), SnapshotTime(now, 365 - j);
    SeriesAt(enriched, payments, now, calcs, i);
    SeriesAt(enriched, payments, now, calcs, j);
    PaymentsGrowWithTime(payments, ti, tj);
    assert forall p :: p in PaymentsOn(payments, tj) ==> p in payments;
    TotalRevenueOfSubsequence(PaymentsOn(payments, ti), PaymentsOn(payments, tj));
  }

  /** The loop over `daysAgo` from 365 down to 0, pushing the entry of each
      day. */
  method BuildSeries(entry: int -> DailySnapshot) returns (snapshots: seq<DailySnapshot>)
    ensures snapshots == Pushed(entry, HistoryDays)
  {
    snapshots := [];
    var daysAgo := 365;
    while daysAgo >= 0
      invariant -1 <= daysAgo <= 365
      invariant snapshots == Pushed(entry, 365 - daysAgo)
    {
      snapshots := snapshots + [entry(daysAgo)];
      daysAgo := daysAgo - 1;
    }
  }

  // ---------------------------------------------------------------------------
  // The route.

  /** The counts and the date range of the success response. */
  datatype Stats = Stats(memberships: int, payments: int, plans: int, snapshotsGenerated: int, start: int, end: int)

  datatype Response = BadRequest | ServerError | Completed(stats: Stats)

  /** The store writes of a request, in order: 0 stores the raw data, 1 the
      history entries, 2 the backfill flag. `failingWrite` names the one that
      throws, if any; a write that throws changes nothing. */
  predicate WriteFails(failingWrite: Option<nat>, k: nat)
  {
    failingWrite == Some(k)
  }

  predicate AnyWriteFails(failingWrite: Option<nat>)
  {
    failingWrite.Some? && failingWrite.value < 3
  }

  function SeriesOf(api: WhopApi, nowMs: int, calcs: Calculators): seq<DailySnapshot>
    requires FetchSucceeds(api)
  {
    HistorySeries(Enrich(api.memberships.value, PlanIndex(api.plans.value)), api.payments.value, nowMs / MsPerSecond, calcs)
  }

  function ResponseOf(companyId: Option<string>, api: WhopApi, failingWrite: Option<nat>, nowMs: int, calcs: Calculators): Response
  {
    if !TruthyStr(companyId) then BadRequest
    else if !FetchSucceeds(api) || AnyWriteFails(failingWrite) then ServerError
    else
      var s := SeriesOf(api, nowMs, calcs);
      Completed(Stats(|api.memberships.value|, |api.payments.value|, |api.plans.value|, |s|, s[0].date, s[|s| - 1].date))
  }

  /** The store writes, from the raw data on, for given raw data and entries. */
  function WritesAfter(docs: Docs, id: string, raw: RawData, series: seq<DailySnapshot>, failingWrite: Option<nat>, nowMs: int)
    : Docs
  {
    if WriteFails(failingWrite, 0) then docs
    else
      var stored := StoreRawDataDocs(docs, id, raw, nowMs);
      if WriteFails(failingWrite, 1) then stored
      else
        var bulk := BulkUpsertDocs(stored, id, series, nowMs);
        if WriteFails(failingWrite, 2) then bulk else MarkBackfillCompletedDocs(bulk, id, nowMs)
  }

  /** The `company_metrics` documents after a request. */
  function DocsAfter(docs: Docs, companyId: Option<string>, api: WhopApi, failingWrite: Option<nat>, nowMs: int, calcs: Calculators)
    : Docs
  {
    if !TruthyStr(companyId) || !FetchSucceeds(api) then docs
    else
      WritesAfter(docs, companyId.value, StoredRawData(companyId.value, api.memberships.value, api.plans.value, api.payments.value),
                  SeriesOf(api, nowMs, calcs), failingWrite, nowMs)
  }

  predicate FlagSet(docs: Docs, companyId: string)
  {
    companyId in docs && docs[companyId].backfillCompleted == Some(true)
  }

  /** Writes that stop at a failure never set the backfill flag. */
  lemma FailedWritesLeaveFlag(docs: Docs, id: string, raw: RawData, series: seq<DailySnapshot>, failingWrite: Option<nat>, nowMs: int)
    requires AnyWriteFails(failingWrite)
    ensures FlagSet(WritesAfter(docs, id, raw, series, failingWrite, nowMs), id) ==> FlagSet(docs, id)
  {
    var stored := StoreRawDataDocs(docs, id, raw, nowMs);
    if WriteFails(failingWrite, 2) {
      var pulled := PullDocs(stored, id, DatesOf(series));
      assert id in pulled ==> pulled[id].backfillCompleted == stored[id].backfillCompleted;
    }
  }

  /** Writes that all succeed leave the raw data, the flag, and on the date
      of an entry no other entry has exactly that entry. */
  lemma CompletedWrites(docs: Docs, id: string, raw: RawData, series: seq<DailySnapshot>, failingWrite: Option<nat>, nowMs: int, k: int)
    requires !AnyWriteFails(failingWrite)
    requires 0 <= k < |series|
    requires forall j :: 0 <= j < |series| && j != k ==> series[j].date != series[k].date
    ensures var after := WritesAfter(docs, id, raw, series, failingWrite, nowMs);
      FlagSet(after, id) && after[id].rawData == Some(raw)
      && Filter(HistoryOf(after, id), DateIs(series[k].date)) == [series[k]]
  {
    var stored := StoreRawDataDocs(docs, id, raw, nowMs);
    var bulk := BulkUpsertDocs(stored, id, series, nowMs);
    var after := MarkBackfillCompletedDocs(bulk, id, nowMs);
    assert after == WritesAfter(docs, id, raw, series, failingWrite, nowMs);
    var d := series[k].date;
    assert series[k] in series;
    assert d in DatesOf(series);
    BulkUpsertHistory(stored, id, series, nowMs, d);
    assert id in bulk && bulk[id].rawData == Some(raw);
    assert after[id] == bulk[id].(backfillCompleted := Some(true), backfillCompletedAt := Some(nowMs));
    assert HistoryOf(after, id) == HistoryOf(bulk, id);
    forall j | 0 <= j < |series| && j != k
      ensures !DateIs(d)(series[j])
    {
    }
    FilterUnique(series, k, DateIs(d));
  }

  /** A request without a company id, or whose fetches throw, writes nothing. */
  lemma RejectedWritesNothing(docs: Docs, companyId: Option<string>, api: WhopApi, failingWrite: Option<nat>, nowMs: int, calcs: Calculators)
    requires !TruthyStr(companyId) || !FetchSucceeds(api)
    ensures ResponseOf(companyId, api, failingWrite, nowMs, calcs) == (if TruthyStr(companyId) then ServerError else BadRequest)
    ensures DocsAfter(docs, companyId, api, failingWrite, nowMs, calcs) == docs
  {
  }

  /** With the REST client as imported, no request completes and none writes. */
  lemma RestClientNeverCompletes(docs: Docs, companyId: Option<string>, ms: Option<seq<Membership>>, failingWrite: Option<nat>, nowMs: int, calcs: Calculators)
    ensures !ResponseOf(companyId, RestClient(ms), failingWrite, nowMs, calcs).Completed?
    ensures DocsAfter(docs, companyId, RestClient(ms), failingWrite, nowMs, calcs) == docs
  {
  }

  /** A completed request reports 366 entries, from a year ago to today. */
  lemma CompletedRunStats(companyId: Option<string>, api: WhopApi, failingWrite: Option<nat>, nowMs: int, calcs: Calculators)
    requires ResponseOf(companyId, api, failingWrite, nowMs, calcs).Completed?
    ensures FetchSucceeds(api) && TruthyStr(companyId) && !AnyWriteFails(failingWrite)
    ensures var stats := ResponseOf(companyId, api, failingWrite, nowMs, calcs).stats;
      var today := DayOf(nowMs / MsPerSecond);
      stats.snapshotsGenerated == 366 && stats.start == today - 365 && stats.end == today
  {
    var ms, plans, ps := api.memberships.value, api.plans.value, api.payments.value;
    SeriesDates(Enrich(ms, PlanIndex(plans)), ps, nowMs / MsPerSecond, calcs);
  }

  /** The entries of a request are dated one day apart, ending today. */
  lemma SeriesOfDates(api: WhopApi, nowMs: int, calcs: Calculators)
    requires FetchSucceeds(api)
    ensures var s := SeriesOf(api, nowMs, calcs);
      |s| == 366 && forall j :: 0 <= j < |s| ==> s[j].date == DayOf(nowMs / MsPerSecond) - 365 + j
  {
    SeriesDates(Enrich(api.memberships.value, PlanIndex(api.plans.value)), api.payments.value, nowMs / MsPerSecond, calcs);
  }

  /** No two entries of a request share a date. */
  lemma SeriesOfDistinct(api: WhopApi, nowMs: int, calcs: Calculators, k: int)
    requires FetchSucceeds(api)
    requires 0 <= k < 366
    ensures var s := SeriesOf(api, nowMs, calcs);
      |s| == 366 && forall j :: 0 <= j < |s| && j != k ==> s[j].date != s[k].date
  {
    SeriesOfDates(api, nowMs, calcs);
  }

  /** A completed request leaves the company's document with the fetched raw
      data, the backfill flag set, and on the day of each new entry exactly
      that entry. */
  lemma CompletedRunHistory(docs: Docs, companyId: Option<string>, api: WhopApi, failingWrite: Option<nat>, nowMs: int, calcs: Calculators, k: int)
    requires TruthyStr(companyId) && FetchSucceeds(api) && !AnyWriteFails(failingWrite)
    requires 0 <= k < 366
    ensures var after := DocsAfter(docs, companyId, api, failingWrite, nowMs, calcs);
      var id := companyId.value;
      var s := SeriesOf(api, nowMs, calcs);
      FlagSet(after, id)
      && after[id].rawData == Some(StoredRawData(id, api.memberships.value, api.plans.value, api.payments.value))
      && Filter(HistoryOf(after, id), DateIs(s[k].date)) == [s[k]]
  {
    var id := companyId.value;
    var raw := StoredRawData(id, api.memberships.value, api.plans.value, api.payments.value);
    var s := SeriesOf(api, nowMs, calcs);
    SeriesOfDistinct(api, nowMs, calcs, k);
    CompletedWrites(docs, id, raw, s, failingWrite, nowMs, k);
  }

  /** A request that fails never sets the backfill flag. */
  lemma FailureLeavesFlag(docs: Docs, companyId: Option<string>, api: WhopApi, failingWrite: Option<nat>, nowMs: int, calcs: Calculators)
    requires ResponseOf(companyId, api, failingWrite, nowMs, calcs).ServerError?
    ensures companyId.Some? && FlagSet(DocsAfter(docs, companyId, api, failingWrite, nowMs, calcs), companyId.value)
            ==> FlagSet(docs, companyId.value)
  {
    if FetchSucceeds(api) {
      var ms, plans, ps := api.memberships.value, api.plans.value, api.payments.value;
      FailedWritesLeaveFlag(docs, companyId.value, StoredRawData(companyId.value, ms, plans, ps), SeriesOf(api, nowMs, calcs), failingWrite, nowMs);
    }
  }

  /** The three store writes of a request, in order; the first that throws
      ends the request with the writes before it in place. */
  method WriteAll(id: string, raw: RawData, series: seq<DailySnapshot>, failingWrite: Option<nat>, nowMs: int, store: CompanyMetricsStore)
    returns (ok: bool)
    modifies store
    ensures ok == !AnyWriteFails(failingWrite)
    ensures store.docs == WritesAfter(old(store.docs), id, raw, series, failingWrite, nowMs)
  {
    if WriteFails(failingWrite, 0) {
      return false;
    }
    store.StoreRawData(id, raw, nowMs);
    if WriteFails(failingWrite, 1) {
      return false;
    }
    store.BulkUpsertSnapshots(id, series, nowMs);
    if WriteFails(failingWrite, 2) {
      return false;
    }
    store.MarkBackfillCompleted(id, nowMs);
    ok := true;
  }

  /** The `POST` handler. A body that cannot be read is a `500` with no
      reads or writes. */
  method Post(
    body: RequestBody, api: WhopApi, failingWrite: Option<nat>, nowMs: int, calcs: Calculators,
    store: CompanyMetricsStore)
    returns (r: Response)
    modifies store
    ensures body.Malformed? ==> r == ServerError && store.docs == old(store.docs)
    ensures body.Body? ==> r == ResponseOf(body.companyId, api, failingWrite, nowMs, calcs)
    ensures body.Body? ==> store.docs == DocsAfter(old(store.docs), body.companyId, api, failingWrite, nowMs, calcs)
  {
    if body.Malformed? {
      return ServerError;
    }
    var companyId := body.companyId;
    if companyId.None? || companyId.value == "" {
      return BadRequest;
    }
    var id := companyId.value;
    if api.memberships.None? || api.plans.None? || api.payments.None? {
      return ServerError;
    }
    var allMemberships, allPlans, payments := api.memberships.value, api.plans.value, api.payments.value;
    var planMap := BuildPlanMap(allPlans);
    var enrichedMemberships := Enrich(allMemberships, planMap);
    var snapshots := BuildSeries(EntryOfDay(enrichedMemberships, payments, nowMs / MsPerSecond, calcs));
    assert snapshots == SeriesOf(api, nowMs, calcs);
    var ok := WriteAll(id, StoredRawData(id, allMemberships, allPlans, payments), snapshots, failingWrite, nowMs, store);
    if !ok {
      return ServerError;
    }
    r := Completed(Stats(|allMemberships|, |payments|, |allPlans|, |snapshots|, snapshots[0].date, snapshots[|snapshots| - 1].date));
  }
}
