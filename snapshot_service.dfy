/** The snapshot capture: fetch a company, drain its memberships and plans,
    fetch its payments, enrich, compute MRR and subscriber figures at the
    present and upsert today's `metrics_snapshots` document; and the loop that
    does so for every registered company. Times are whole seconds; store
    times are milliseconds. */
module SnapshotService {
  import opened Common
  import opened Records
  import opened Mrr
  import opened Subscribers
  import opened Pagination
  import opened Enrichment
  import opened Snapshots
  import MetricsRepository
  import CompanyRepository
  import Backfill

  /** What the outside world answers during one capture: the company lookup
      (`None` when it throws), the replies of the two list connections, the
      payments response body's `data` (`None` when the request throws), and
      whether the upsert throws. */
  datatype CaptureWorld = CaptureWorld(
    company: Option<Backfill.WhopCompany>,
    membershipPages: seq<Reply<Membership>>,
    planPages: seq<Reply<Plan>>,
    transactions: Option<Field<seq<Payment>>>,
    storeFails: bool)

  /** Every call succeeds. */
  predicate CaptureSucceeds(w: CaptureWorld)
  {
    w.company.Some? && DrainSucceeds(w.membershipPages) && DrainSucceeds(w.planPages)
    && w.transactions.Some? && !w.storeFails
  }

  /** `transactionsData.data || []`: an array is truthy even when empty. */
  function TransactionsOf(data: Field<seq<Payment>>): (r: seq<Payment>)
    ensures data.Val? ==> r == data.v
    ensures !data.Val? ==> r == []
  {
    if data.Val? then data.v else []
  }

  /** The `metadata.activeMemberships` filter: status active or completed,
      `canceledAt === null`, and `expiresAt` falsy or after the present. */
  predicate ActiveMembership(m: Membership, now: int)
  {
    (m.status == "active" || m.status == "completed") && m.canceledAt == Null
    && (!TruthyNum(m.expiresAt) || m.expiresAt.v > now)
  }

  function ActiveMembershipAt(now: int): Membership -> bool
  {
    m => ActiveMembership(m, now)
  }

  /** The body a capture writes for the fetched data at time `now`. */
  function CaptureBody(company: Backfill.WhopCompany, ms: seq<Membership>, plans: seq<Plan>, txs: seq<Payment>, now: int)
    : MetricsBody
  {
    var enriched := Enrich(ms, PlanIndex(plans));
    var mrr := Backfill.MrrOf(enriched, now);
    var activeUnique := GetActiveUniqueSubscribers(enriched, now);
    MetricsBody(
      mrr := mrr,
      arr := CalculateARR(mrr.total),
      arpu := CalculateARPU(mrr.total, activeUnique),
      subscribers := Backfill.SubscribersOf(enriched, now),
      activeUniqueSubscribers := activeUnique,
      metadata := Metadata(|ms|, |Filter(enriched, ActiveMembershipAt(now))|, |plans|),
      rawData := Some(FetchedRawData(Backfill.RawCompanyOf(company), ms, plans, txs)),
      sections := None)
  }

  function CaptureBodyOf(w: CaptureWorld, now: int): MetricsBody
    requires CaptureSucceeds(w)
  {
    CaptureBody(w.company.value, DrainResult(w.membershipPages).value, DrainResult(w.planPages).value,
                TransactionsOf(w.transactions.value), now)
  }

  /** Enrichment only attaches `planData`, which the active filter does not
      read: the enriched and the fetched lists have as many active memberships. */
  lemma {:induction false} ActiveCountIgnoresEnrichment(ms: seq<Membership>, planMap: map<string, Plan>, now: int)
    ensures |Filter(Enrich(ms, planMap), ActiveMembershipAt(now))| == |Filter(ms, ActiveMembershipAt(now))|
    decreases |ms|
  {
    if |ms| > 0 {
      var e := Enrich(ms, planMap);
      assert e[1..] == Enrich(ms[1..], planMap);
      ActiveCountIgnoresEnrichment(ms[1..], planMap, now);
      assert ActiveMembership(e[0], now) == ActiveMembership(ms[0], now);
    }
  }

  /** What a capture's body holds: ARR and ARPU from the one MRR total; the
      active-membership count at most the total and the same as on the
      fetched list; the fetched (not enriched) memberships, the plans and the
      payments kept as raw data; no backfill sections. */
  lemma CaptureBodyFacts(company: Backfill.WhopCompany, ms: seq<Membership>, plans: seq<Plan>, txs: seq<Payment>, now: int)
    ensures var b := CaptureBody(company, ms, plans, txs, now);
      b.arr == CalculateARR(b.mrr.total) && b.arpu == CalculateARPU(b.mrr.total, b.activeUniqueSubscribers)
      && b.mrr.total == MrrSum(Enrich(ms, PlanIndex(plans)), now)
      && b.metadata.totalMemberships == |ms| && b.metadata.plansCount == |plans|
      && b.metadata.activeMemberships == |Filter(ms, ActiveMembershipAt(now))|
      && b.metadata.activeMemberships <= b.metadata.totalMemberships
      && b.rawData == Some(RawData(Some(Backfill.RawCompanyOf(company)), Some(ms), plans, Some(txs), None))
      && b.sections.None?
  {
    ActiveCountIgnoresEnrichment(ms, PlanIndex(plans), now);
  }

  /** A capture on a day whose document the backfill already wrote replaces
      its figures and raw data but keeps its backfill sections. */
  lemma CaptureKeepsBackfillSections(
    docs: seq<MetricsRepository.MetricsDoc>, companyId: string, date: int, timestamp: int,
    company: Backfill.WhopCompany, ms: seq<Membership>, plans: seq<Plan>, txs: seq<Payment>, now: int)
    requires MetricsRepository.FirstWithKey(docs, companyId, date) < |docs|
    ensures var i := MetricsRepository.FirstWithKey(docs, companyId, date);
      var body := CaptureBody(company, ms, plans, txs, now);
      var r := MetricsRepository.UpsertDocs(docs, companyId, date, timestamp, body);
      |r| == |docs| && r[i].body.sections == docs[i].body.sections
      && r[i].body.rawData == body.rawData && r[i].body.mrr == body.mrr && r[i].timestamp == timestamp
  {
  }

  /** Steps 5 to 7 of a capture: enrich, run the calculators at the present
      and assemble the body. */
  method CaptureMetrics(
    company: Backfill.WhopCompany, allMemberships: seq<Membership>, allPlans: seq<Plan>, transactions: seq<Payment>, now: int)
    returns (body: MetricsBody)
    ensures body == CaptureBody(company, allMemberships, allPlans, transactions, now)
  {
    var planMap := BuildPlanMap(allPlans);
    var enriched := Enrich(allMemberships, planMap);
    var mrrData := CalculateMRR(enriched, now);
    var subscriberMetrics := CalculateSubscriberMetrics(enriched, now);
    var activeUniqueSubscribers := GetActiveUniqueSubscribers(enriched, now);
    body := MetricsBody(
      mrr := mrrData,
      arr := CalculateARR(mrrData.total),
      arpu := CalculateARPU(mrrData.total, activeUniqueSubscribers),
      subscribers := subscriberMetrics,
      activeUniqueSubscribers := activeUniqueSubscribers,
      metadata := Metadata(|allMemberships|, |Filter(enriched, ActiveMembershipAt(now))|, |allPlans|),
      rawData := Some(FetchedRawData(Backfill.RawCompanyOf(company), allMemberships, allPlans, transactions)),
      sections := None);
  }

  /** `captureCompanySnapshot(companyId)`: every failure is rethrown before the
      store is written. */
  method CaptureCompanySnapshot(companyId: string, w: CaptureWorld, now: int, metrics: MetricsRepository.MetricsStore)
    returns (ok: bool)
    modifies metrics
    ensures ok <==> CaptureSucceeds(w)
    ensures ok ==> metrics.docs == MetricsRepository.UpsertDocs(old(metrics.docs), companyId,
      UtcMidnightMs(now * MsPerSecond), now * MsPerSecond, CaptureBodyOf(w, now))
    ensures !ok ==> metrics.docs == old(metrics.docs)
  {
    if w.company.None? {
      return false;
    }
    var company := w.company.value;
    var membershipsResult, _, _ := DrainConnection(w.membershipPages);
    if membershipsResult.Failure? {
      return false;
    }
    var plansResult, _, _ := DrainConnection(w.planPages);
    if plansResult.Failure? {
      return false;
    }
    if w.transactions.None? {
      return false;
    }
    var transactions := TransactionsOf(w.transactions.value);
    var body := CaptureMetrics(company, membershipsResult.value, plansResult.value, transactions, now);
    if w.storeFails {
      return false;
    }
    metrics.UpsertDailySnapshot(companyId, body, now * MsPerSecond);
    ok := true;
  }

  // ---------------------------------------------------------------------------
  // Every registered company.

  /** A call `captureAllSnapshots` issues, with the key it passes. */
  datatype SyncCall = Capture(key: Field<string>) | UpdateLastSync(key: Field<string>)

  /** `company.whopCompanyId`: company documents have no such field, so the
      key read is always `undefined`. */
  function WhopCompanyIdOf(c: CompanyRepository.Company): Field<string>
  {
    Undefined
  }

  /** The index of the first capture that throws among the first `n`, or `n`. */
  function FirstFailure(n: nat, succeeds: nat -> bool): (k: nat)
    ensures k <= n
    ensures forall i :: 0 <= i < k ==> succeeds(i)
    ensures k < n ==> !succeeds(k)
  {
    if n == 0 then 0
    else if FirstFailure(n - 1, succeeds) < n - 1 then FirstFailure(n - 1, succeeds)
    else if succeeds(n - 1) then n else n - 1
  }

  /** The calls for `n` companies whose `i`-th capture succeeds iff
      `succeeds(i)`: a capture then a last-sync update per company, up to and
      including the first capture that throws. */
  function SyncTrace(n: nat, succeeds: nat -> bool): seq<SyncCall>
  {
    var k := FirstFailure(n, succeeds);
    seq(2 * k, j => if j % 2 == 0 then Capture(Undefined) else UpdateLastSync(Undefined))
      + (if k < n then [Capture(Undefined)] else [])
  }

  /** What the trace says: nothing happens without companies; every key is
      `undefined`; captures and updates alternate, capture first; it is
      complete (two calls per company) exactly when every capture succeeds,
      and otherwise ends with the capture that threw. */
  lemma SyncTraceFacts(n: nat, succeeds: nat -> bool)
    ensures n == 0 ==> SyncTrace(n, succeeds) == []
    ensures forall c :: c in SyncTrace(n, succeeds) ==> c.key == Undefined
    ensures forall j :: 0 <= j < |SyncTrace(n, succeeds)| ==> (SyncTrace(n, succeeds)[j].Capture? <==> j % 2 == 0)
    ensures (forall i :: 0 <= i < n ==> succeeds(i)) <==> |SyncTrace(n, succeeds)| == 2 * n
    ensures !(forall i :: 0 <= i < n ==> succeeds(i)) ==> |SyncTrace(n, succeeds)| % 2 == 1
  {
    var k := FirstFailure(n, succeeds);
    if !(forall i :: 0 <= i < n ==> succeeds(i)) {
      assert k < n;
    }
  }

  /** `captureAllSnapshots`: every registered company in order, capture then
      last-sync update, under the key `whopCompanyId`; the first failure ends
      the loop and is rethrown. `succeeds(i)` says whether the `i`-th capture
      succeeds. The last-sync update under an undefined key matches no company
      document, so the companies are left as they were. */
  method CaptureAllSnapshots(companies: CompanyRepository.CompanyStore, succeeds: nat -> bool)
    returns (ok: bool, calls: seq<SyncCall>)
    ensures ok <==> forall i :: 0 <= i < |companies.docs| ==> succeeds(i)
    ensures calls == SyncTrace(|companies.docs|, succeeds)
  {
    var all := CompanyRepository.GetAllCompanies(companies.docs);
    calls := [];
    if |all| == 0 {
      return true, calls;
    }
    var i := 0;
    while i < |all|
      invariant 0 <= i <= |all|
      invariant forall j :: 0 <= j < i ==> succeeds(j)
      invariant calls == seq(2 * i, j => if j % 2 == 0 then Capture(Undefined) else UpdateLastSync(Undefined))
    {
      var key := WhopCompanyIdOf(all[i]);
      calls := calls + [Capture(key)];
      if !succeeds(i) {
        assert FirstFailure(|all|, succeeds) == i by {
          FirstFailureIs(|all|, succeeds, i);
        }
        return false, calls;
      }
      calls := calls + [UpdateLastSync(key)];
      i := i + 1;
    }
    FirstFailureIs(|all|, succeeds, |all|);
    ok := true;
  }

  /** `FirstFailure` is the first index that fails, or `n`. */
  lemma {:induction false} FirstFailureIs(n: nat, succeeds: nat -> bool, k: nat)
    requires k <= n
    requires forall i :: 0 <= i < k ==> succeeds(i)
    requires k < n ==> !succeeds(k)
    ensures FirstFailure(n, succeeds) == k
  {
  }
}
