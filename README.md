# Subscription metrics pipeline of a Whop analytics dashboard, in Dafny

This project models the part of the dashboard that turns a company's Whop data into subscription figures and stores them. It covers:

- **The calculators.**
  - `Mrr`: price normalisation, the MRR breakdown by billing period, ARR and ARPU.
  - `Subscribers`: status buckets and distinct-member counts.
  - `Churn`: customer churn, revenue churn and net revenue retention between two periods.
- **Ingestion.** `Ingestion` maps SDK records to the internal shape. `Pagination` holds the cursor drains of the membership, plan and payment lists. `Enrichment` attaches each membership's plan by id.
- **Point-in-time reconstruction.** `PointInTime` decides which memberships existed and which payments had been made at a snapshot time. `Backfill` runs the 366-day history loop and backfills every company that needs it. `ManualHistorical` and `ManualDaily` are the two manual snapshot routes.
- **The stores.**
  - `MetricsRepository`: the `metrics_snapshots` collection, keyed by company and UTC day.
  - `CompanyMetricsRepository`: one document per company, holding a `history` array that is upserted by pull-then-push.
  - `CompanyRepository`: the `companies` registry.
  - `Snapshots`: the bodies and history entries the stores hold, and the revenue figures derived for them.
- **Route decisions and snapshot capture.**
  - `AnalyticsRoute`: the plain analytics route.
  - `EnrichedRoute`: the cached analytics route with its ten-minute cache.
  - `PlanCatalog`: the plan de-duplication both routes use.
  - `EnsureBackfill`: the backfill-needed decision.
  - `SnapshotService`: the capture of one company and of all companies.

Conventions of the model:

- **Time units.** Whop timestamps are whole seconds. Mongo dates are milliseconds. The `YYYY-MM-DD` day keys of `company_metrics` histories are day numbers, so their string order is their numeric order.
- **The current time is a parameter.** Functions take `now` in seconds; routes take `nowMs` in milliseconds and use `nowMs / 1000`. One company's backfill reads the clock once for its snapshot days (`lib/services/backfillService.ts:137`), and the model takes the metrics repository's own clock to show that same instant during that company's run (see "## Left out"). The backfill of all pending companies runs one company after another, so it takes a `clock` function: the i-th company's backfill runs at `clock(i)`.
- **JavaScript properties are three-valued.** A property can be `undefined`, `null` or a value. Falsy `||` defaults are written out.
- **Field names differ between producer and consumer.** The calculators read snake_case fields (`canceled_at`, `renewal_period_end`, `planData.renewal_price`). The ingestion mapping writes camelCase `canceledAt`/`expiresAt` and never the snake_case ones. The model keeps both sets of fields and proves what follows: a mapped membership is never counted in MRR and always lands in the cancelled bucket.
- **The outside world is an oracle passed in.** Each list endpoint is a sequence of replies, one per call. A fetch that throws is `None`. A store write that fails is named by an index.
- **Calculators without source are parameters.** The trial, lifetime-value, cash-flow, payment and refund calculators are function values in `Calculators`.
- **Numbers.** Money is `real`. `NaN` is represented only where an undefined `renewal_price` produces it in the MRR calculator, and in the figures derived from that MRR.

## Model

| member | source | states |
|---|---|---|
| Mrr.NormalizePriceToMonthly | lib/analytics/mrr.ts:6-25 | the cents price divided by 100, then kept for a month, divided by 12 for a year, by 3 for a quarter, times 4.33 for a week, times 30 for a day, 0 for a lifetime, and kept for any other period; a non-negative price gives a non-negative result |
| Mrr.BillingDays | lib/analytics/mrr.ts:62 | `billing_period \|\| 30` is never 0 and is the plan's own period whenever that is truthy |
| Mrr.MonthlyRevenue | lib/analytics/mrr.ts:61-65 | the contribution is a number exactly when `renewal_price` is present, and then it times the billing days equals the price times 30 |
| Mrr.CalculateMRR | lib/analytics/mrr.ts:30-96 | the filter-then-forEach loop yields the breakdown of the reference step function over the memberships, the total is monthly + annual + quarterly + other, and an empty list gives all zeros |
| Mrr.BreakdownOfStep | lib/analytics/mrr.ts:51-80 | processing one more membership applies exactly one more bucket update |
| Mrr.BreakdownOfSnoc | lib/analytics/mrr.ts:51-80 | appending a membership to the list applies one more bucket update |
| Mrr.CalculateARR | lib/analytics/mrr.ts:101-103 | ARR is a number exactly when MRR is, and ARR / 12 is MRR |
| Mrr.CalculateARPU | lib/analytics/mrr.ts:108-111 | 0 whenever there are no active subscribers, whatever the MRR; otherwise ARPU times the subscriber count is the MRR |
| Mrr.BucketSumSnoc | lib/analytics/mrr.ts:70-79 | the reference sum of one bucket grows by exactly the appended membership's contribution to it |
| Mrr.MrrSumSnoc | lib/analytics/mrr.ts:65-82 | the reference MRR sum grows by the appended membership's monthly revenue when it contributes, and by 0 otherwise |
| Mrr.BreakdownBucketsAreSums | lib/analytics/mrr.ts:70-79 | each bucket of the computed breakdown is the sum of the monthly revenues of the contributing memberships whose billing period selects that bucket (30, 365, 90, anything else) |
| Mrr.StepGet | lib/analytics/mrr.ts:70-79 | one membership adds its contribution to its own bucket and 0 to the others |
| Mrr.TotalAfterAdd | lib/analytics/mrr.ts:82 | adding to any one bucket adds the same amount to the total |
| Mrr.MrrTotalIsSum | lib/analytics/mrr.ts:82 | the total is the sum of the monthly revenues of all contributing memberships, whatever their bucket |
| Mrr.MrrIsNaNIffPriceMissing | lib/analytics/mrr.ts:61-65 | the MRR is NaN if and only if some contributing membership's plan has no `renewal_price` |
| Mrr.MrrNonNegative | lib/analytics/mrr.ts:61-79 | with priced plans and positive billing periods the MRR is a non-negative number |
| Mrr.QuotientNonNegative | lib/analytics/mrr.ts:65 | a non-negative price over a positive period is non-negative |
| Mrr.OnlyCountedMembershipsMatter | lib/analytics/mrr.ts:38-46 | only memberships that are active/completed, have `canceled_at` null, an unexpired or null `renewal_period_end` and plan data affect the breakdown |
| Mrr.NoCountedMembershipsNoMrr | lib/analytics/mrr.ts:38-82 | when no membership passes the filter, every bucket and the total are 0 |
| Mrr.MembershipsWithoutSnakeCaseFieldsGiveZeroMrr | lib/analytics/mrr.ts:43 | memberships whose `canceled_at` is absent (as the SDK mapping produces them) never pass `=== null`, so the breakdown is all zeros |
| Mrr.BreakdownOfConcat | lib/analytics/mrr.ts:51-80 | a bucket of a concatenation is the first list's bucket plus the second's |
| Mrr.BucketSumConcat | lib/analytics/mrr.ts:70-79 | the reference bucket sum distributes over concatenation |
| Mrr.BreakdownOrderIndependent | lib/analytics/mrr.ts:51-80 | the order of the memberships does not change the breakdown |
| Subscribers.Classify | lib/analytics/subscribers.ts:17-31 | a membership is in the active bucket exactly when it passes the activity test; a non-active membership with a non-null `canceled_at` is cancelled whatever its status; an active-status membership with `canceled_at` null and an expired `renewal_period_end` is counted nowhere; trialing and past_due need `canceled_at` null |
| Subscribers.CalculateSubscriberMetrics | lib/analytics/subscribers.ts:6-36 | each counter is the number of memberships in its bucket, the total is active + cancelled + past_due + trialing, and the total plus the uncounted memberships is the list length |
| Subscribers.BucketsPartition | lib/analytics/subscribers.ts:22-30 | every membership increments exactly one of the four counters or none |
| Subscribers.SubscriberTotalBounded | lib/analytics/subscribers.ts:33 | the total never exceeds the number of memberships |
| Subscribers.MembershipsWithoutSnakeCaseFieldsAreCancelled | lib/analytics/subscribers.ts:19-24 | memberships without a `canceled_at` field are all cancelled and none active, since `undefined !== null` |
| Subscribers.MemberIds | lib/analytics/subscribers.ts:42 | the ids of memberships with a member are no more than the memberships |
| Subscribers.MemberIdsExactly | lib/analytics/subscribers.ts:42 | an id is listed if and only if some membership's member carries it |
| Subscribers.GetUniqueSubscriberCount | lib/analytics/subscribers.ts:41-44 | the distinct count is at most the number of listed ids and the number of memberships |
| Subscribers.GetActiveUniqueSubscribers | lib/analytics/subscribers.ts:49-63 | the distinct active member count is at most the active bucket for the same time |
| Subscribers.ActiveUniqueAtMostUnique | lib/analytics/subscribers.ts:41-61 | the active distinct count never exceeds the overall distinct count |
| Subscribers.ActiveUniqueExactly | lib/analytics/subscribers.ts:52-61 | an id is counted as active if and only if one of its memberships is active and has that member |
| Common.Percent | lib/analytics/churn.ts:29 | `(part / whole) * 100` times the whole is 100 times the part, and lies in [0, 100] when 0 ≤ part ≤ whole |
| Common.PercentOr | lib/analytics/churn.ts:28-30 | `whole > 0 ? (part / whole) * 100 : fallback`: the percentage when the whole is positive, the fallback otherwise |
| Churn.CalculateChurnMetrics | lib/analytics/churn.ts:7-65 | customer churn is the churned count as a percentage of the previously active count, 0 when there were none, and lies in [0, 100]; revenue churn and NRR are the churned and current plan MRR as percentages of the previous plan MRR, 0 and 100 when that is not positive; with non-negative prices revenue churn lies in [0, 100] |
| Churn.RevenueChurnBounded | lib/analytics/churn.ts:33-45 | with non-negative prices the churned MRR lies between 0 and the previous MRR, so the revenue churn rate lies in [0, 100] |
| Churn.PlanMrrNonNegative | lib/analytics/churn.ts:33-36 | a plan MRR sum over non-negative prices is non-negative |
| Churn.PlanMrrOfFilterAtMost | lib/analytics/churn.ts:22-41 | with non-negative prices, keeping a subsequence of memberships cannot raise the plan MRR |
| Churn.ChurnedMrrAtMostPrevious | lib/analytics/churn.ts:33-41 | churned MRR never exceeds the previous period's MRR when prices are non-negative |
| Churn.PlanlessMembershipsAddNothing | lib/analytics/churn.ts:34-51 | memberships without a plan add 0: the sum over all equals the sum over those with a plan |
| Churn.IdenticalPeriodsHaveNoChurn | lib/analytics/churn.ts:12-30 | comparing a period with itself churns nobody and gives customer churn 0 |
| Churn.ChurnedExactly | lib/analytics/churn.ts:12-24 | a membership is churned if and only if it was active and valid in the previous period and no active, valid current membership has its user id |
| Ingestion.TimeOrNull | lib/whop/helpers.ts:24-67 | a present timestamp is kept as a value and an absent one becomes `null` |
| Ingestion.OrElse | lib/whop/helpers.ts:26-72 | `x \|\| fallback`: the string itself when it is non-empty, the fallback otherwise |
| Ingestion.OrZero | lib/whop/helpers.ts:68-70 | `x ?? 0`: the number when present, 0 when null or absent |
| Ingestion.MapMembership | lib/whop/helpers.ts:20-39 | id, status and creation time are copied; `canceledAt`/`expiresAt` are null when absent; `totalSpend` is 0; `plan` is undefined exactly when absent and otherwise the SDK's plan reference; `member` is null exactly when the user is absent, else carries its id, an empty email, the username or the empty string when it is not truthy, and the name; the snake_case fields and `planData` are left undefined |
| Ingestion.MapPayment | lib/whop/helpers.ts:61-79 | status defaults to `pending` and substatus to `succeeded`; `paid_at`/`refunded_at` are null when absent; total, subtotal and refunded amount default to 0 and the billing reason to the empty string; a present plan, membership or user keeps its id (and the membership its status), an absent one becomes an empty id |
| Ingestion.MapPlan | lib/whop/helpers.ts:98-114 | the plan type is `one_time` if and only if the SDK's is, and `renewal` otherwise; prices and period are copied to camelCase fields; the access pass is null exactly when there is no product and otherwise that product; the snake_case fields the MRR calculator reads stay undefined |
| Ingestion.GetAllMemberships | lib/whop/helpers.ts:8-43 | exactly one mapped record per yielded membership, in yield order |
| Ingestion.GetAllPayments | lib/whop/helpers.ts:49-83 | exactly one mapped record per yielded payment, in yield order |
| Ingestion.GetAllPlans | lib/whop/helpers.ts:89-118 | exactly one mapped record per yielded plan, in yield order |
| Pagination.StopAt | lib/services/backfillService.ts:44-58 | the stopping call is the first one that throws or reports no next page; every earlier page answered and reported one |
| Pagination.DrainConnection | lib/services/backfillService.ts:44-58 | the connection loop makes exactly one call more than the number of pages with a next page, yields the nodes of every page up to and including the stopping one in call order (or a failure if that call threw), and passes no cursor first and each page's end cursor to the next call |
| Pagination.CollectedPrefix | lib/services/backfillService.ts:52 | nodes already collected are never lost or reordered by later pages |
| Pagination.CollectedFromPages | lib/services/backfillService.ts:51-52 | every collected node comes from one of the pages fetched |
| Pagination.SinglePageDrain | lib/services/backfillService.ts:54-57 | a first page without a next page is the whole result |
| Pagination.DrainStopsOnLastPage | lib/services/backfillService.ts:54-57 | a drain that succeeds stopped exactly on the first page reporting no next page |
| Pagination.RestStopAt | lib/services/backfillService.ts:88-119 | the payments loop stops at the first call that throws, returns no payments, or lacks `has_next_page` or a non-empty `end_cursor`; every earlier page had payments and both |
| Pagination.DrainPayments | lib/services/backfillService.ts:84-121 | the payments loop makes one call per continuing page plus one, yields the payments of those pages plus the stopping page (an empty stopping page adds nothing) or a failure if that call threw, and sends each continuing page's `end_cursor` as the next `after` |
| Pagination.RestStopsHere | lib/services/backfillService.ts:105-118 | up to the stopping call, a call ends the loop if and only if it throws, is empty or gives no way to continue |
| Pagination.EmptyPageEndsDrain | lib/services/backfillService.ts:105-106 | an empty page after continuing pages ends the drain and is never appended |
| Pagination.RestStopAtFirst | lib/services/backfillService.ts:105-118 | the first empty answered page, after continuing pages, is the stopping call |
| Enrichment.PlanIndexIsLastWithId | lib/services/backfillService.ts:125-128 | an id is in the plan map if and only if some plan has it, and it maps to the last plan with that id (`Map.set` overwrites) |
| Enrichment.BuildPlanMap | lib/services/backfillService.ts:125-128 | the forEach loop builds exactly the last-wins index of the plans, whose keys are exactly the plan ids |
| Enrichment.PlanDataOf | lib/services/backfillService.ts:132 | a membership gets plan data exactly when it has a plan reference whose id is in the map, and then the mapped plan; otherwise `undefined` |
| Enrichment.Enrich | lib/services/backfillService.ts:130-133 | enrichment keeps length, order and every field except `planData`, which is the resolved plan |
| Enrichment.EnrichedPlanIsLastMatch | lib/services/backfillService.ts:125-133 | an enriched membership carries the last plan whose id its reference names, and has no plan data exactly when it has no reference or no plan matches |
| Enrichment.EnrichIdempotent | lib/services/snapshotService.ts:80-88 | enriching twice with the same map is the same as enriching once |
| PointInTime.MembershipsOn | lib/services/backfillService.ts:148-156 | a membership is kept if and only if `(createdAt \|\| 0) ≤ t`, `(canceledAt \|\| ∞) > t` and `(expiresAt \|\| ∞) > t`; never more than the input |
| PointInTime.PaymentsOn | lib/services/backfillService.ts:159-162 | a payment is kept if and only if `paid_at \|\| created_at` is truthy and not after `t`; never more than the input |
| PointInTime.FiltersKeepOrder | lib/services/backfillService.ts:148-162 | both filters return subsequences of their inputs |
| PointInTime.PaymentsGrowWithTime | lib/services/backfillService.ts:159-162 | the payments kept at an earlier time are a subsequence of those kept at a later time |
| PointInTime.CancelledMembershipLeaves | lib/services/backfillService.ts:150-154 | a membership cancelled between two snapshot times is kept at the earlier and dropped at the later, so membership visibility is not monotone |
| PointInTime.NotYetCreated | lib/services/backfillService.ts:149-153 | a membership created after `t` is not kept |
| Records.UtcMidnightMs | lib/db/repositories/MetricsRepository.ts:31-32 | `setUTCHours(0, 0, 0, 0)` gives the midnight that starts the UTC day containing the time |
| MetricsRepository.FirstWithKey | lib/db/repositories/MetricsRepository.ts:34-38 | the document `updateOne` matches is the first with the (company, date) key, or none |
| MetricsRepository.UpsertDocsEffect | lib/db/repositories/MetricsRepository.ts:34-50 | after an upsert a document with the key holds the new values and the new timestamp, no other document changes, and a document is added only when none had the key |
| MetricsRepository.UpsertKeepsOtherKeys | lib/db/repositories/MetricsRepository.ts:34-50 | the documents of every other key are unchanged and in the same order |
| MetricsRepository.UpsertLeavesOneDocument | lib/db/repositories/MetricsRepository.ts:34-50 | with at most one document for the key before, there is exactly one after |
| MetricsRepository.SecondUpsertWins | lib/db/repositories/MetricsRepository.ts:34-50 | two upserts on the same key, the second setting every field, leave the same collection as the second alone |
| MetricsRepository.FirstWithKeyAfterUpsert | lib/db/repositories/MetricsRepository.ts:34-38 | the upserted document is still the one a later upsert on the key matches |
| MetricsRepository.FirstWithKeyIs | lib/db/repositories/MetricsRepository.ts:34-38 | the first index holding the key is the one matched |
| MetricsRepository.InsertByDate | lib/db/repositories/MetricsRepository.ts:70 | inserting into a date-sorted list keeps it sorted and adds exactly the one document |
| MetricsRepository.InsertBehindHead | lib/db/repositories/MetricsRepository.ts:70 | an earlier-dated head stays in front of the insertion into the rest, keeping order and elements |
| MetricsRepository.SortByDate | lib/db/repositories/MetricsRepository.ts:70-88 | `.sort({ date: 1 })` is ascending by date and a permutation of its input |
| MetricsRepository.SnapshotsByDateRange | lib/db/repositories/MetricsRepository.ts:56-72 | exactly the company's documents with start ≤ date ≤ end, each as often as stored, ascending by date |
| MetricsRepository.RecentSnapshots | lib/db/repositories/MetricsRepository.ts:77-90 | exactly the company's documents dated on or after the UTC midnight `days` days back, ascending by date |
| MetricsRepository.Latest | lib/db/repositories/MetricsRepository.ts:99-101 | `sort({date: -1}).limit(1)`: a listed document of maximal date, none for an empty list |
| MetricsRepository.LatestSnapshot | lib/db/repositories/MetricsRepository.ts:95-102 | a company document of maximal date, or null exactly when the company has none |
| MetricsRepository.LatestSnapshotWithRawData | lib/db/repositories/MetricsRepository.ts:108-118 | a company document with raw data of maximal date among those, or null exactly when none has raw data |
| MetricsRepository.LatestIsFirstMax | lib/db/repositories/MetricsRepository.ts:99-101 | the document picked is the first of maximal date |
| MetricsRepository.UpsertDocsMembers | lib/db/repositories/MetricsRepository.ts:34-50 | every document after an upsert was there before or carries the upserted key |
| MetricsRepository.LatestAfterUpsert | lib/db/repositories/MetricsRepository.ts:27-118 | upserting a body with raw data under a date no earlier than the company's other raw-data documents makes it the latest snapshot with raw data |
| MetricsRepository.LatestWithRawDataNoLater | lib/db/repositories/MetricsRepository.ts:95-118 | the latest snapshot with raw data exists only if a latest snapshot does, and is no later |
| MetricsRepository.HasFreshSnapshot | lib/db/repositories/MetricsRepository.ts:123-134 | true if and only if some company document has a timestamp within the last day |
| MetricsRepository.GetDailyMetrics | lib/db/repositories/MetricsRepository.ts:139-149 | one row per recent snapshot in the same order, carrying its MRR total, ARR, active unique subscribers and ARPU, with the day of its date |
| MetricsRepository.DeleteCount | lib/db/repositories/MetricsRepository.ts:159-164 | the documents kept and the documents removed together are the whole collection |
| MetricsRepository.MetricsStore.CreateSnapshot | lib/db/repositories/MetricsRepository.ts:13-21 | inserts unconditionally and returns the document, so a key can gain a second document |
| MetricsRepository.MetricsStore.UpsertDailySnapshot | lib/db/repositories/MetricsRepository.ts:27-51 | the collection becomes the upsert keyed on today's UTC midnight at the call time, whatever day the values describe |
| MetricsRepository.MetricsStore.DeleteOldSnapshots | lib/db/repositories/MetricsRepository.ts:154-165 | removes exactly the company's documents dated before the cutoff, keeps everything else in order, and returns how many went |
| Snapshots.Merge | lib/db/repositories/MetricsRepository.ts:40-43 | `$set` replaces every listed field and keeps the stored `rawData` and backfill sections only when the new body does not list them |
| Snapshots.MergeComplete | lib/db/repositories/MetricsRepository.ts:40-43 | a body listing every optional field replaces the stored one entirely |
| Snapshots.MergeTwice | lib/db/repositories/MetricsRepository.ts:40-43 | a second `$set` makes the first one's listed fields irrelevant wherever it lists them too |
| Snapshots.TotalRevenueIsPaidTotal | lib/services/backfillService.ts:177 | total revenue is the sum of the totals of the `paid` payments alone |
| Snapshots.TotalRevenueBounds | lib/services/backfillService.ts:177 | with non-negative totals, revenue is non-negative and at most the sum of all totals |
| Snapshots.TotalRevenueOfSubsequence | lib/services/backfillService.ts:159-177 | with non-negative totals, the revenue of a subsequence of the payments is at most the revenue of all of them |
| Snapshots.NetRevenue | lib/services/backfillService.ts:182-185 | net revenue plus the refunded amount plus `0.029·revenue + 0.30·payments` is the gross revenue |
| Snapshots.CountRateOrZero | lib/services/backfillService.ts:266-294 | a count rate is 0 when the whole is 0, otherwise the part as a percentage of it, in [0, 100] when the part is at most the whole |
| Snapshots.AvgSalePrice | lib/services/backfillService.ts:302 | 0 when there are no payments, otherwise the price times the number of payments is the revenue |
| Snapshots.CancellationRateBounded | lib/services/backfillService.ts:266-310 | the cancellation and customer churn rates of any counts made by the subscriber calculator lie in [0, 100] |
| Snapshots.DailySnapshotOf | app/api/manual/historical/route.ts:103-148 | a history entry carries its day, the MRR total, ARR and ARPU of that total, the active unique subscribers as both active subscribers and active customers, the paid revenue, net revenue after refunds and fees, and a churn rate and average sale price that are 0 when their denominators are |
| PlanCatalog.EntriesOf | app/api/analytics/route.ts:56-59 | one `{ id, name }` entry per plan, in order, each the plan's id and title |
| PlanCatalog.HasIdCons | app/api/analytics/route.ts:54 | `acc.find` on a list headed by another id finds the id exactly when the rest holds it |
| PlanCatalog.FirstOccurrencesCons | app/api/analytics/route.ts:53-62 | de-duplication keeps the head and drops every later entry with its id |
| PlanCatalog.FirstOccurrencesSnoc | app/api/analytics/route.ts:53-62 | one step of the `reduce`: appending an entry to the input adds it to the result exactly when its id is not listed yet |
| PlanCatalog.FirstOccurrencesMembers | app/api/analytics/route.ts:53-62 | every kept entry comes from the input |
| PlanCatalog.FirstOccurrencesSubsequence | app/api/analytics/route.ts:53-62 | the kept entries keep the input's order |
| PlanCatalog.FirstOccurrencesDistinct | app/api/analytics/route.ts:53-62 | no id is kept twice |
| PlanCatalog.FirstOccurrencesCover | app/api/analytics/route.ts:53-62 | every id of the input is kept |
| PlanCatalog.FirstWithIdIs | app/api/analytics/route.ts:54 | the first entry with an id exists exactly when some entry has that id, and it is one of the list's entries with that id |
| PlanCatalog.FirstWithIdFiltered | app/api/analytics/route.ts:53-62 | dropping the entries of another id leaves the first entry of an id unchanged |
| PlanCatalog.FirstOccurrencesAreFirst | app/api/analytics/route.ts:53-62 | each kept entry is the first entry of the input with its id |
| PlanCatalog.CatalogOnlyTitled | app/api/analytics/route.ts:51-62 | every listed plan is a plan with a truthy title, and its name is that non-empty title, never `'Unknown Plan'` |
| PlanCatalog.CatalogDistinct | app/api/analytics/route.ts:51-62 | no plan id is listed twice |
| PlanCatalog.CatalogCovers | app/api/analytics/route.ts:51-62 | every titled plan's id is listed |
| PlanCatalog.CatalogFirstInOrder | app/api/analytics/route.ts:51-62 | the list keeps the plans' order and each entry is the first titled plan with its id |
| PlanCatalog.ReducedIsFirstOccurrences | app/api/analytics/route.ts:53-62 | after any number of steps the `reduce`'s accumulator is the de-duplication of the entries seen |
| PlanCatalog.ReducedIsCatalog | app/api/analytics/route.ts:51-62 | the finished `reduce` is the plan list |
| PlanCatalog.UniquePlans | app/api/analytics/enriched/route.ts:104-115 | the `filter(...).reduce(...)` loop builds exactly the de-duplicated list of titled plans |
| EnsureBackfill.DecideCases | app/api/analytics/ensure-backfill/route.ts:29-78 | a backfill is requested if and only if no stored company has it marked and either no company is stored or fewer than 30 recent snapshots exist; a missing company is backfilled however many snapshots there are; marking happens only for a stored, unmarked company; the response's `companyExists` says whether the company is stored |
| EnsureBackfill.MarkedThenAlreadyComplete | app/api/analytics/ensure-backfill/route.ts:42-52 | after a request that marks the company complete, every later request answers "already complete" with that time, whatever the snapshots |
| EnsureBackfill.Get | app/api/analytics/ensure-backfill/route.ts:11-90 | a missing `company_id` is a 400 with no reads or writes; otherwise the answer is the decision over the stored company and its snapshots of the last 365 days, and the companies collection changes only by marking the backfill complete on a `MarkComplete` answer; when that mark throws, the answer is a 500 and the companies collection is unchanged |
| CompanyMetricsRepository.DatesOf | lib/db/repositories/CompanyMetricsRepository.ts:103 | the set of dates is exactly the dates carried by the snapshots |
| CompanyMetricsRepository.GetCompanyMetrics | lib/db/repositories/CompanyMetricsRepository.ts:13-25 | the company's document, or null exactly when there is none |
| CompanyMetricsRepository.StoreRawDataDocs | lib/db/repositories/CompanyMetricsRepository.ts:30-58 | on an existing document only `rawData` and `lastUpdated` change; a missing one is created with empty history and `backfillCompleted` false; other companies are untouched |
| CompanyMetricsRepository.PullDocs | lib/db/repositories/CompanyMetricsRepository.ts:72-111 | `$pull` removes the entries with the given dates from that company's history, keeping the order of the rest, and never creates a document |
| CompanyMetricsRepository.PushDocs | lib/db/repositories/CompanyMetricsRepository.ts:79-121 | `$push` with upsert appends the snapshots in order and sets `lastUpdated`; a missing document is created holding only them |
| CompanyMetricsRepository.UpsertDailyHistory | lib/db/repositories/CompanyMetricsRepository.ts:63-89 | after a daily upsert the history is the old one without that date, in order, followed by the snapshot, so exactly one entry has the date and it is the last (on a missing document the history is just the snapshot) |
| CompanyMetricsRepository.UpsertDailyIdempotent | lib/db/repositories/CompanyMetricsRepository.ts:63-89 | repeating a daily upsert of the same snapshot gives the same documents as the last call alone |
| CompanyMetricsRepository.BulkUpsertHistory | lib/db/repositories/CompanyMetricsRepository.ts:94-124 | the history becomes the old entries whose dates are not among the new ones, in order, followed by the new snapshots in order; each new date holds exactly its new entries and every other date keeps its own |
| CompanyMetricsRepository.BulkUpsertLength | lib/db/repositories/CompanyMetricsRepository.ts:94-124 | the new length is the old length minus the entries removed plus the snapshots pushed |
| CompanyMetricsRepository.MarkBackfillCompletedDocs | lib/db/repositories/CompanyMetricsRepository.ts:129-145 | sets the flag and its time on an existing document and is a no-op when none exists |
| CompanyMetricsRepository.GetHistoricalSnapshots | lib/db/repositories/CompanyMetricsRepository.ts:150-182 | the history entries with start ≤ date ≤ end, in stored order, or `[]` without a document |
| CompanyMetricsRepository.FirstIndexOnDate | lib/db/repositories/CompanyMetricsRepository.ts:193-197 | the index of the first entry with the date, or none |
| CompanyMetricsRepository.FirstOnDate | lib/db/repositories/CompanyMetricsRepository.ts:193-197 | the positional projection returns an entry of the history with the date, or null exactly when none has it |
| CompanyMetricsRepository.GetTodaySnapshot | lib/db/repositories/CompanyMetricsRepository.ts:187-206 | an entry of the company's history dated today, or null exactly when none is |
| CompanyMetricsRepository.UpsertThenToday | lib/db/repositories/CompanyMetricsRepository.ts:187-206 | after a daily upsert, the snapshot of its date is the one written |
| CompanyMetricsRepository.CompanyMetricsStore.StoreRawData | lib/db/repositories/CompanyMetricsRepository.ts:30-58 | the documents become the raw-data upsert of the old ones |
| CompanyMetricsRepository.CompanyMetricsStore.UpsertDailySnapshot | lib/db/repositories/CompanyMetricsRepository.ts:63-89 | the documents become the pull of the snapshot's date followed by the push of the snapshot |
| CompanyMetricsRepository.CompanyMetricsStore.BulkUpsertSnapshots | lib/db/repositories/CompanyMetricsRepository.ts:94-124 | the documents become the pull of every new date followed by the push of all snapshots |
| CompanyMetricsRepository.CompanyMetricsStore.MarkBackfillCompleted | lib/db/repositories/CompanyMetricsRepository.ts:129-145 | the documents become the flag update of the old ones |
| CompanyRepository.ApplyPatch | lib/db/repositories/CompanyRepository.ts:40-43 | `$set` of a patch always sets `updatedAt`, never changes `companyId`, `createdAt` or the backfill fields, and an empty patch changes nothing else |
| CompanyRepository.FirstWithId | lib/db/repositories/CompanyRepository.ts:13-38 | the document `findOne`/`updateOne` matches is the first with the id, or none |
| CompanyRepository.FindByWhopCompanyId | lib/db/repositories/CompanyRepository.ts:11-14 | a stored document with that company id, or null exactly when none has it |
| CompanyRepository.GetAllCompanies | lib/db/repositories/CompanyRepository.ts:66-69 | every stored document, and nothing else |
| CompanyRepository.RegisteredCompany | lib/db/repositories/CompanyRepository.ts:75-114 | the returned document is the one after the update: it has the id, the new fields and `updatedAt` = now; it keeps the stored `createdAt` when the id was known, and otherwise has `createdAt` = now and no backfill or sync |
| CompanyRepository.RegisterEffect | lib/db/repositories/CompanyRepository.ts:89-111 | registering a known id keeps the document count, a new id adds one document, and the documents of other ids are untouched and in order |
| CompanyRepository.RegisterThenFind | lib/db/repositories/CompanyRepository.ts:89-113 | registering never makes a second document for an id, and looking the id up afterwards gives the returned document |
| CompanyRepository.FirstWithIdIs | lib/db/repositories/CompanyRepository.ts:13 | the first index holding the id is the one matched |
| CompanyRepository.UpdateDocs | lib/db/repositories/CompanyRepository.ts:35-47 | `update` touches only the first document with the id, keeps the count, and a missing id changes nothing |
| CompanyRepository.Modified | lib/db/repositories/CompanyRepository.ts:46-60 | `modifiedCount > 0` holds if and only if the update changed the collection, which needs a document with the id |
| CompanyRepository.UpdateModifiesKnownId | lib/db/repositories/CompanyRepository.ts:35-47 | a matched document whose `updatedAt` differs from now is always reported modified |
| CompanyRepository.UpdateLastSyncEffect | lib/db/repositories/CompanyRepository.ts:49-61 | `updateLastSync` sets `lastSyncAt` and `updatedAt` to now and nothing else |
| CompanyRepository.CreateDocs | lib/db/repositories/CompanyRepository.ts:21-33 | `create` appends the company with fresh timestamps without checking the id, adding one document for it |
| CompanyRepository.CreateCanDuplicate | lib/db/repositories/CompanyRepository.ts:21-33 | creating a company whose id is registered already leaves two documents for it |
| CompanyRepository.MarkBackfillCompletedDocsEffect | lib/services/backfillService.ts:347 | sets the backfill flag and time on the company's document and changes nothing else; a missing id changes nothing |
| CompanyRepository.GetCompaniesNeedingBackfill | lib/services/backfillService.ts:368 | exactly the companies without a completed backfill, in collection order |
| CompanyRepository.MarkedCompanyNoLongerNeedsBackfill | lib/services/backfillService.ts:347-368 | once marked, the company's document is no longer among those needing a backfill |
| CompanyRepository.FirstWithIdKept | lib/db/repositories/CompanyRepository.ts:13 | when every document stays in place with its id, a lookup matches the same document as before |
| CompanyRepository.MarkedKept | lib/services/backfillService.ts:347 | a company whose backfill is marked stays marked through any change that keeps the documents in place and clears no flag |
| CompanyRepository.RegisterKeepsDocs | lib/db/repositories/CompanyRepository.ts:89-111 | registering keeps every document in place with its id and leaves every backfill flag as it was |
| CompanyRepository.MarkKeepsDocs | lib/services/backfillService.ts:347 | marking keeps every document in place, touches no document of another id, and leaves the company marked when it has a document |
| CompanyRepository.CompanyStore.RegisterCompany | lib/db/repositories/CompanyRepository.ts:75-114 | the collection becomes the upsert and the document after it is returned |
| CompanyRepository.CompanyStore.Create | lib/db/repositories/CompanyRepository.ts:21-33 | appends unconditionally and returns the caller's company |
| CompanyRepository.CompanyStore.Update | lib/db/repositories/CompanyRepository.ts:35-47 | patches the first document with the id and returns true if and only if the collection changed |
| CompanyRepository.CompanyStore.UpdateLastSync | lib/db/repositories/CompanyRepository.ts:49-61 | records the sync time on the first document with the id and returns true if and only if the collection changed |
| CompanyRepository.CompanyStore.MarkBackfillCompleted | lib/services/backfillService.ts:347 | the collection becomes the flag update of the old one |
| ManualHistorical.CompanyTitle | app/api/manual/historical/route.ts:48-54 | the stored title is never empty: the first membership's company title when it has a truthy one, `Company` otherwise |
| ManualHistorical.HistorySeries | app/api/manual/historical/route.ts:78-154 | the series has exactly 366 entries |
| ManualHistorical.PushedAt | app/api/manual/historical/route.ts:80-120 | after `n` iterations the list holds `n` entries and entry `k` is the one of `daysAgo` = 365 − `k` |
| ManualHistorical.SeriesAt | app/api/manual/historical/route.ts:80-148 | entry `k` is the snapshot of the instant 365 − `k` whole days before now, computed from the memberships and payments filtered at that instant |
| ManualHistorical.DayOfShift | app/api/manual/historical/route.ts:81-83 | going back `d` whole days moves the UTC date back by exactly `d` |
| ManualHistorical.SeriesDate | app/api/manual/historical/route.ts:80-121 | entry `k` is dated 365 − `k` days before today |
| ManualHistorical.SeriesDates | app/api/manual/historical/route.ts:80-120 | the 366 entries are dated on consecutive days ending today, so the dates increase strictly |
| ManualHistorical.SeriesEntryFacts | app/api/manual/historical/route.ts:87-146 | each entry uses the same point-in-time filters as the backfill, shows the active unique subscribers in both subscriber columns, the MRR sum of the day's memberships, a churn rate in [0, 100], the paid revenue of the payments made by then, and an average sale price of 0 when there are no payments |
| ManualHistorical.RevenueNeverDecreases | app/api/manual/historical/route.ts:97-114 | with non-negative payment totals the revenue column never decreases from one entry to a later one |
| ManualHistorical.BuildSeries | app/api/manual/historical/route.ts:78-154 | the `daysAgo` loop from 365 down to 0 pushes the entry of each day, in that order |
| ManualHistorical.FailedWritesLeaveFlag | app/api/manual/historical/route.ts:158-197 | when any of the three writes throws, the backfill flag is not newly set |
| ManualHistorical.CompletedWrites | app/api/manual/historical/route.ts:51-163 | when every write succeeds, the document holds the raw data, the flag is set, and the history has exactly the new entry on each new entry's date |
| ManualHistorical.RejectedWritesNothing | app/api/manual/historical/route.ts:24-44 | a missing `company_id` gives 400 and a throwing fetch 500, and neither writes anything |
| ManualHistorical.RestClientNeverCompletes | app/api/manual/historical/route.ts:2-43 | with the imported client, which has no `getAllPlans`/`getAllPayments`, no request completes and none writes |
| ManualHistorical.CompletedRunStats | app/api/manual/historical/route.ts:173-186 | a completed request had an id, successful fetches and successful writes, and reports 366 snapshots dated from 365 days ago to today |
| ManualHistorical.SeriesOfDates | app/api/manual/historical/route.ts:80-84 | the entries of a request are dated on consecutive days ending on the day of the request |
| ManualHistorical.SeriesOfDistinct | app/api/manual/historical/route.ts:80-84 | no two entries of a request share a date |
| ManualHistorical.CompletedRunHistory | app/api/manual/historical/route.ts:51-163 | a request that completes leaves the company document with the fetched raw data, the backfill flag set, and on the date of each new entry exactly that entry |
| ManualHistorical.FailureLeavesFlag | app/api/manual/historical/route.ts:158-197 | a request answered with 500 never sets the backfill flag |
| ManualHistorical.WriteAll | app/api/manual/historical/route.ts:51-163 | the raw-data write, the bulk upsert and the flag write happen in that order; the first that throws ends the request with the earlier writes in place |
| ManualHistorical.Post | app/api/manual/historical/route.ts:16-199 | a body that cannot be read is a 500 with no writes; otherwise the response and the stored documents are those of the request: 400 without a company id, 500 when a fetch or a write throws, otherwise the stats of the 366 entries |
| ManualDaily.TodaySnapshotFacts | app/api/manual/daily/route.ts:80-130 | today's entry is dated with today's UTC day, shows the active unique subscribers as both active subscribers and active customers, the MRR sum of all enriched memberships, a churn rate in [0, 100], the paid revenue of all payments, and an average sale price of 0 when there are no payments |
| ManualDaily.TodayMatchesHistorical | app/api/manual/daily/route.ts:80-130 | when every membership still exists and every payment has been paid, today's entry equals the last entry (`daysAgo` = 0) the manual historical backfill writes |
| ManualDaily.CompletedWrites | app/api/manual/daily/route.ts:54-134 | when both writes succeed, the entry upserted is the company's snapshot of its date and the raw data is the one stored |
| ManualDaily.UpsertKeepsRawData | lib/db/repositories/CompanyMetricsRepository.ts:63-89 | the history upsert leaves the document's raw data alone |
| ManualDaily.FailedWritesKeepHistory | app/api/manual/daily/route.ts:54-134 | when a write throws, no history changes |
| ManualDaily.CompletedMeansSucceeded | app/api/manual/daily/route.ts:24-153 | a request completes if and only if it has a company id, all three fetches succeed and both writes succeed; its snapshot is dated today |
| ManualDaily.CompletedRunToday | app/api/manual/daily/route.ts:33-134 | after a completed request, today's history entry of the company is the snapshot the response reports, and the raw data is what was fetched |
| ManualDaily.FailureKeepsHistory | app/api/manual/daily/route.ts:20-166 | a request answered with 400 or 500 leaves every company's history as it was |
| ManualDaily.RestClientNeverCompletes | app/api/manual/daily/route.ts:2-46 | with the imported client, which has no `getAllPlans`/`getAllPayments`, no request completes and none writes |
| ManualDaily.CalculateToday | app/api/manual/daily/route.ts:70-130 | the plan map, the enriched memberships and the entry built from them are today's entry of the enriched memberships and all payments |
| ManualDaily.WriteAll | app/api/manual/daily/route.ts:54-134 | the raw-data write then the upsert; the first that throws ends the request with the earlier write in place |
| ManualDaily.Post | app/api/manual/daily/route.ts:16-166 | a body that cannot be read is a 500 with no writes; otherwise the response and the stored documents are those of the request: 400 without a company id, 500 when a fetch or a write throws, otherwise today's entry and the counts |
| Backfill.CompanyInfoOf | lib/services/backfillService.ts:26-35 | the registered fields are the company's title and raw object, `route \|\| companyId`, and the industry and business types only when truthy |
| Backfill.SnapshotTime | lib/services/backfillService.ts:140-145 | the snapshot of iteration `daysAgo` falls on the day `daysAgo` days before now, at 05:00 |
| Backfill.SnapshotTimesIncrease | lib/services/backfillService.ts:140-145 | consecutive iterations are exactly one day apart, later ones later |
| Backfill.MrrOf | lib/services/backfillService.ts:165 | the day's MRR total is the MRR sum of the memberships on the day |
| Backfill.Minus | lib/services/backfillService.ts:179 | non-recurring revenue is defined exactly when recurring revenue is, and the two add up to the total |
| Backfill.BackfillSectionsOf | lib/services/backfillService.ts:176-319 | the derived sections: revenue is the paid total and splits into recurring (MRR × 30) and the rest; net revenue plus refunds plus fees is gross, the margin is the net share of gross or 0; new plus returning customers is the active count; churned, cancellations and churn-rate counts are the cancelled subscribers; rates are 0 when their base is 0 |
| Backfill.DayBodyFacts | lib/services/backfillService.ts:147-336 | a day's body carries the MRR, subscriber counts and unique active subscribers of the memberships existing at the snapshot time, ARR and ARPU from that MRR, every optional field, and no more memberships on the day than in total |
| Backfill.CalculatorsUseThePresent | lib/services/backfillService.ts:148-168 | a membership that existed and was active at the snapshot time but whose period has ended since is in the day's list yet counted neither in MRR nor as active |
| Backfill.SnapshotForDay | lib/services/backfillService.ts:147-336 | one iteration computes exactly the day's body, which lists every optional field |
| Backfill.WriteEarlierDay | lib/services/backfillService.ts:147-336 | one pass upserts the day's body under the document of today, over what the earlier passes left, and yields the day `daysAgo` days before today |
| Backfill.DaysWrittenStep | lib/services/backfillService.ts:196-200 | a further upsert of a complete body on today's document replaces what the earlier passes left: the result is as if only that pass had written |
| Backfill.WriteEarlierDays | lib/services/backfillService.ts:140-344 | the passes from 365 down to 1 succeed unless a write throws, generate the 365 consecutive days ending yesterday, and leave one document holding the last body written; when the write of day `failAt` throws, the store holds the body of the pass before it, or is unchanged when that was the first |
| Backfill.WriteToday | lib/services/backfillService.ts:140-344 | the pass for today overwrites what the earlier passes left, so today's body remains; when its write throws, what the earlier passes left stays |
| Backfill.WriteDailySnapshots | lib/services/backfillService.ts:140-344 | the whole loop succeeds if and only if no write throws; then it generates the 366 days ending today and the store holds today's body under today's document; after a throwing write the store holds the body of the last pass that took effect |
| Backfill.FetchAll | lib/services/backfillService.ts:38-121 | memberships, plans and payments are drained in order, and the fetch succeeds if and only if all three do |
| Backfill.BackfillCompanyHistory | lib/services/backfillService.ts:15-359 | the backfill succeeds if and only if every fetch and write does, company registration and the final mark included; then 366 days are generated and today's body is stored; the company is registered when Whop returned it and its registration did not throw, and marked completed only on success; the metrics store is untouched when the registration or a fetch throws, and otherwise holds the body of the last pass that took effect |
| Backfill.BackfillOne | lib/services/backfillService.ts:379 | one company's backfill succeeds if and only if its world lets it, and leaves the metrics and company stores as that backfill leaves them |
| Backfill.CompaniesAfterKeeps | lib/services/backfillService.ts:15-359 | one company's backfill keeps every company document in place, changes no other company's flag, and changes no flag at all when it does not complete |
| Backfill.MarkThrowsKeepsWrites | lib/services/backfillService.ts:346-347 | as written the final mark throws: the backfill does not complete, keeps today's body from its 366 writes when every fetch and write before it succeeded, and leaves the company's completed flag as it was |
| Backfill.CompaniesAfterMarks | lib/services/backfillService.ts:26-347 | a backfill that completes leaves its company marked when the company has a document |
| Backfill.CompaniesAfterEachKeeps | lib/services/backfillService.ts:377-380 | after the backfills of the first n companies every document is still in place, and only companies whose backfill completed have a changed flag |
| Backfill.CompaniesAfterEachMarks | lib/services/backfillService.ts:377-380 | after the backfills of the first n companies, each of them that completed and had a document is marked |
| Backfill.CompletedAreMarked | lib/services/backfillService.ts:366-380 | after backfilling the first n companies that needed it, each whose backfill completed is marked |
| Backfill.FailedStillPending | lib/services/backfillService.ts:366-380 | after backfilling the first n companies that needed it, one among them whose backfill failed still has a document needing a backfill |
| Backfill.OutcomesInStore | lib/services/backfillService.ts:366-380 | read in the companies collection the loop leaves, every reported success is marked, and a stop on failure leaves that company needing a backfill |
| Backfill.AllCompleteMeans | lib/services/backfillService.ts:377-380 | "the first n backfills all completed" holds exactly when each of the first n completed |
| Backfill.OutcomesMatch | lib/services/backfillService.ts:377-380 | when the loop stops after n companies, each reported outcome is whether that company's backfill completed; all but the last succeeded, all did on success, and the last failed otherwise |
| Backfill.BackfillStep | lib/services/backfillService.ts:377-380 | the i-th company's backfill, reading the clock anew, succeeds if and only if its world lets it, and carries both stores one company further |
| Backfill.BackfillLoop | lib/services/backfillService.ts:377-380 | companies are tried in list order up to and including the first failure; on success all were tried and completed, otherwise all before the last completed and the last did not; the stores hold the successive results of the tried backfills |
| Backfill.BackfillEach | lib/services/backfillService.ts:377-380 | companies are tried in list order; all but the last attempted succeeded, each outcome is whether that company's backfill completes, and the run succeeds if and only if every company was attempted and succeeded; the stores hold the successive results of the attempted backfills, each reading the clock anew |
| Backfill.BackfillAllCompaniesNeedingHistory | lib/services/backfillService.ts:364-387 | the companies needing a backfill when it starts are tried in order until the first failure; with none it succeeds and changes nothing; afterwards every company whose backfill succeeded is marked, the one that failed still needs a backfill, and the stores hold the successive results of the attempted backfills |
| AnalyticsRoute.AnalyticsFacts | app/api/analytics/route.ts:38-62 | ARR is derived from the returned MRR total and ARPU divides that same total by the active unique subscribers; MRR and subscriber figures are those of the enriched memberships; the active unique count is at most the active bucket; the plan list is the de-duplicated titled plans |
| AnalyticsRoute.ComputeAnalytics | app/api/analytics/route.ts:27-62 | enriching, running the calculators and building the plan list give exactly the response figures of the fetched lists |
| AnalyticsRoute.FetchAll | app/api/analytics/route.ts:23-25 | the three SDK helpers run in order; the result exists exactly when none throws and holds their mapped records |
| AnalyticsRoute.Get | app/api/analytics/route.ts:10-110 | 400 without a company id, 500 when a fetch throws, otherwise the figures of the fetched lists at the request time |
| EnrichedRoute.RoundedSeconds | app/api/analytics/enriched/route.ts:67 | the reported cache age is the age in milliseconds rounded to the nearest second, halves up |
| EnrichedRoute.CacheRoundTrip | app/api/analytics/enriched/route.ts:27-188 | within ten minutes of a fresh computation, with no later-dated snapshot of the company, the next request without refresh is served from the cache and shows the same figures and plan list |
| EnrichedRoute.CaptureClearsCachedSections | app/api/analytics/enriched/route.ts:53-68 | after a snapshot capture on the same day, a cache hit shows zero trial, lifetime-value, cash-flow, payment and refund sections and the plan list of the captured plans |
| EnrichedRoute.Get | app/api/analytics/enriched/route.ts:14-202 | 400 without a company id; a fresh-enough cached snapshot is served with no fetch or write; a fetch that throws gives 500 and writes nothing; otherwise the fresh figures are returned and written as today's snapshot, and a failing write changes nothing but the store |
| SnapshotService.TransactionsOf | lib/services/snapshotService.ts:77 | `data \|\| []` is the data whenever it is an array, even an empty one, and empty otherwise |
| SnapshotService.ActiveCountIgnoresEnrichment | lib/services/snapshotService.ts:109-118 | enrichment does not change how many memberships the active filter counts |
| SnapshotService.CaptureBodyFacts | lib/services/snapshotService.ts:90-130 | ARR and ARPU derive from the one MRR total; the active-membership count is at most the total and equals that of the fetched list; the fetched memberships, plans and payments are the raw data; no backfill sections |
| SnapshotService.CaptureKeepsBackfillSections | lib/services/snapshotService.ts:100-130 | a capture on a day the backfill already wrote replaces the figures and raw data but keeps the backfill's sections |
| SnapshotService.CaptureMetrics | lib/services/snapshotService.ts:79-130 | enrichment and the calculators give exactly the capture body of the fetched data |
| SnapshotService.CaptureCompanySnapshot | lib/services/snapshotService.ts:11-143 | the capture succeeds if and only if every call does; then today's document holds the capture body, and otherwise the store is unchanged |
| SnapshotService.FirstFailure | lib/services/snapshotService.ts:165-168 | the index of the first capture that throws, every earlier one succeeding, or the count when none throws |
| SnapshotService.FirstFailureIs | lib/services/snapshotService.ts:165-168 | the first failure is the only index with every capture before it succeeding and itself failing |
| SnapshotService.SyncTraceFacts | lib/services/snapshotService.ts:148-175 | no company means no call; every key passed is undefined; captures and last-sync updates alternate; the trace is complete exactly when every capture succeeds and otherwise ends with the capture that threw |
| SnapshotService.CaptureAllSnapshots | lib/services/snapshotService.ts:148-175 | succeeds if and only if every company's capture does, issuing exactly the alternating calls up to the first failure |

## Left out

- Backfill.WriteEarlierDay: `upsertDailySnapshot` reads the clock again for every write: for the day key and for the `timestamp` field (`lib/db/repositories/MetricsRepository.ts:31-32` and `:42`). The model takes that clock to be frozen at the backfill's `now` during one company's run. So it does not represent a run that crosses UTC midnight, whose later passes land in the next day's document, nor a stored `timestamp` later than `now`.
- Backfill.WriteToday: the same frozen repository clock as `Backfill.WriteEarlierDay`; its write lands in the document of the day of `now`, stamped `now`.
- Backfill.WriteDailySnapshots: the same frozen repository clock as `Backfill.WriteEarlierDay`; all 366 writes go to one document.
- Backfill.BackfillCompanyHistory: the same frozen repository clock as `Backfill.WriteEarlierDay`; the company's run writes only to the document of the day of `now`.
- React pages, components and the analytics context: presentation only.
- The network clients, the SDK wrapper, the debug, transactions, memberships, company, cached and historical pass-through routes: they only forward SDK or database results.
- The cron scheduler, `instrumentation.ts`, the startup service and the cron route: process-wide timers and start-up sequencing.
- `update-to-cached.js`: a development script that rewrites files on disk.
- The trial, lifetime-value and transaction calculators (`lib/analytics/trials`, `lifetime`, `transactions`) are not part of this model. They appear as uninterpreted function values, and only the fields the routes copy from them are represented.
- `whopClient.getAllPlans` and `whopClient.getAllPayments`, which the manual routes call, are not defined in `lib/whop/client.ts`. The model treats those fetches as oracles that may throw; `ManualHistorical.RestClientNeverCompletes` states what happens when they always throw.
- `captureAllSnapshots` reads `company.whopCompanyId`, which company documents do not have. The model passes the resulting `undefined` key along in the call trace and does not model a capture of a real company id through that loop.
- `markBackfillCompleted` and `getCompaniesNeedingBackfill` of the company repository are not defined in `lib/db/repositories/CompanyRepository.ts`. They are modelled with stated contracts: set the flag and its time on the company's document; list the companies whose flag is not set. The world flag `markFails` gives the code as written, where the call to `markBackfillCompleted` throws; `Backfill.MarkThrowsKeepsWrites` states what that run leaves behind. As written, `getCompaniesNeedingBackfill` throws too, before any company is backfilled; the model does not represent that failure of the listing.
- `lib/db/models/CompanyMetrics.ts` is not part of this model. The `company_metrics` document shape is taken from the repository code.
- `findById` of the company repository: it depends on Mongo `ObjectId` values.
- The `Math.round` of logged amounts, `toFixed`, and all logging. Only the cache age's `Math.round` is modelled.
- Local-time `setDate`/`setHours`: UTC stands in for the server's time zone, and daylight-saving shifts are ignored.
- IEEE-754 arithmetic: money is exact `real`, with `NaN` kept only for an undefined `renewal_price` in the MRR calculator and what is computed from that MRR.
- Churn.CalculateChurnMetrics: a plan without a `price` and a membership without a `user_id` are not represented. In JavaScript an undefined price makes the period sums `NaN`, so revenue churn would be 0 and net revenue retention 100, and all memberships without a user id share one key.
- Fractional seconds: Whop times are whole seconds, and `Date.now() / 1000` is the integer quotient.
- Database reads are taken never to throw. A write that throws has no effect on the store, so the two-step `$pull`/`$push` of a history upsert is not split into two failure points.
- The detached backfill started by the ensure-backfill route is recorded as a request only. Its failure never reaches the response, which the model states.
- `EnrichedRoute.CachedAnalytics`: a cached section is either all present or replaced as a whole by zeros; a partially populated stored section is not represented.
- `ManualHistorical.Post` and `ManualDaily.Post` compute the history entries before the raw-data write rather than after it. The computation is pure, so the stored outcome and the response are the same.
- The SDK's `for await` iterators are represented by the sequence of records they yield.
- Ingestion.MapMembership: `promoCode` (lib/whop/helpers.ts:38) is not in the membership record; nothing in this model reads it.
- Ingestion.MapPlan: `baseCurrency`, `description`, `createdAt`, `updatedAt`, `visibility` and `releaseMethod` (lib/whop/helpers.ts:104-113) are not in the plan record; nothing in this model reads them.
- Pagination.DrainResult: the reply sequence is finite, and a call past its end throws, so every modelled drain ends. A server that reports a next page forever would keep the source's `while (hasNextPage)` loops running; that case is not represented.
- CompanyRepository.CompanyPatch: the `Partial<Company>` of `update` is narrowed to five fields (title, route, logo, user id, last sync time); updates of other fields are not represented.
