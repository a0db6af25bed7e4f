/** The route that makes sure a company has history: answer at once when its
    backfill is marked complete, mark it complete when a month of snapshots
    already exists, and otherwise ask for a backfill. The backfill itself
    runs detached from the response; here only the request for it is
    recorded. Times are milliseconds. */
module EnsureBackfill {
  import opened Common
  import MetricsRepository
  import CompanyRepository

  /** Snapshots in the last 365 days that count as enough history. */
  const EnoughSnapshots: nat := 30
  const LookbackDays: int := 365

  /** The three answers of a request with a company id. */
  datatype Decision =
    | AlreadyComplete(completedAt: Option<int>)
    | MarkComplete(snapshotsFound: nat)
    | StartBackfill(snapshotsFound: nat, companyExists: bool)

  /** `400` without a company id, `500` when a write throws, else the decision. */
  datatype Response = BadRequest | ServerError | Answer(decision: Decision)

  /** `needsBackfill` of the response. */
  predicate NeedsBackfill(d: Decision)
  {
    d.StartBackfill?
  }

  /** The decision for the stored company (if any) and the number of recent
      snapshots. */
  function Decide(company: Option<CompanyRepository.Company>, snapshotsFound: nat): Decision
  {
    if company.Some? && company.value.backfillCompleted then AlreadyComplete(company.value.backfillCompletedAt)
    else if snapshotsFound >= EnoughSnapshots && company.Some? then MarkComplete(snapshotsFound)
    else StartBackfill(snapshotsFound, company.Some?)
  }

  /** A backfill is asked for exactly when no stored company has it marked and
      either no company is stored or fewer than 30 snapshots exist; a missing
      company is backfilled however many snapshots there are; the response
      says whether the company exists. */
  lemma DecideCases(company: Option<CompanyRepository.Company>, snapshotsFound: nat)
    ensures NeedsBackfill(Decide(company, snapshotsFound))
        <==> company.None? || (!company.value.backfillCompleted && snapshotsFound < EnoughSnapshots)
    ensures company.None? ==> Decide(company, snapshotsFound) == StartBackfill(snapshotsFound, false)
    ensures Decide(company, snapshotsFound).MarkComplete? ==> company.Some? && !company.value.backfillCompleted
    ensures NeedsBackfill(Decide(company, snapshotsFound)) ==> Decide(company, snapshotsFound).companyExists == company.Some?
  {
  }

  /** The route's answer to a request, given the stores as they are. */
  function Respond(
    companyId: Option<string>, companies: seq<CompanyRepository.Company>, metrics: seq<MetricsRepository.MetricsDoc>, now: int)
    : Response
  {
    if !TruthyStr(companyId) then BadRequest
    else Answer(Decide(CompanyRepository.FindByWhopCompanyId(companies, companyId.value),
                       |MetricsRepository.RecentSnapshots(metrics, companyId.value, LookbackDays, now)|))
  }

  /** The companies collection after the request: only a `MarkComplete`
      answer writes, and it sets the flag. */
  function CompaniesAfter(
    companyId: Option<string>, companies: seq<CompanyRepository.Company>, metrics: seq<MetricsRepository.MetricsDoc>, now: int)
    : seq<CompanyRepository.Company>
  {
    var r := Respond(companyId, companies, metrics, now);
    if r.Answer? && r.decision.MarkComplete? then CompanyRepository.MarkBackfillCompletedDocs(companies, companyId.value, now)
    else companies
  }

  /** A request that marks the company answers every later request (with the
      same stores) with `AlreadyComplete`, whatever the snapshots: marking is
      the step that makes the route stable. */
  lemma MarkedThenAlreadyComplete(
    companyId: Option<string>, companies: seq<CompanyRepository.Company>, metrics: seq<MetricsRepository.MetricsDoc>,
    now: int, later: int, laterMetrics: seq<MetricsRepository.MetricsDoc>)
    requires Respond(companyId, companies, metrics, now).Answer?
    requires Respond(companyId, companies, metrics, now).decision.MarkComplete?
    ensures Respond(companyId, CompaniesAfter(companyId, companies, metrics, now), laterMetrics, later)
         == Answer(AlreadyComplete(Some(now)))
  {
    var id := companyId.value;
    var r := CompanyRepository.MarkBackfillCompletedDocs(companies, id, now);
    CompanyRepository.MarkedCompanyNoLongerNeedsBackfill(companies, id, now);
    CompanyRepository.FirstWithIdIs(r, id, CompanyRepository.FirstWithId(companies, id));
  }

  /** The `GET` handler. A `StartBackfill` answer leaves the stores to the
      detached backfill (see `Backfill.BackfillCompanyHistory`); its outcome
      never reaches the response. When marking the company throws
      (`markFails`), the handler answers `500` and the companies collection
      is as it was. */
  method Get(
    companyId: Option<string>, now: int, markFails: bool,
    metrics: MetricsRepository.MetricsStore, companies: CompanyRepository.CompanyStore)
    returns (r: Response)
    modifies companies
    ensures var d := Respond(companyId, old(companies.docs), metrics.docs, now);
      if d.Answer? && d.decision.MarkComplete? && markFails
      then r == ServerError && companies.docs == old(companies.docs)
      else r == d && companies.docs == CompaniesAfter(companyId, old(companies.docs), metrics.docs, now)
  {
    if companyId.None? || companyId.value == "" {
      return BadRequest;
    }
    var id := companyId.value;
    var company := CompanyRepository.FindByWhopCompanyId(companies.docs, id);
    if company.Some? && company.value.backfillCompleted {
      return Answer(AlreadyComplete(company.value.backfillCompletedAt));
    }
    var recentSnapshots := MetricsRepository.RecentSnapshots(metrics.docs, id, LookbackDays, now);
    if |recentSnapshots| >= EnoughSnapshots && company.Some? {
      if markFails {
        return ServerError;
      }
      companies.MarkBackfillCompleted(id, now);
      return Answer(MarkComplete(|recentSnapshots|));
    }
    r := Answer(StartBackfill(|recentSnapshots|, company.Some?));
  }
}
