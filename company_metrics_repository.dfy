/** The `company_metrics` collection: one document per company holding the
    raw-data cache, a `history` array of daily entries, and the backfill flag.
    The collection is a map from company id to document; every write matches
    on `companyId`. Times are milliseconds; history dates are day numbers. */
module CompanyMetricsRepository {
  import opened Common
  import opened Snapshots

  datatype CompanyMetricsDoc = CompanyMetricsDoc(
    companyId: string,
    rawData: Option<RawData>,
    lastUpdated: Option<int>,
    history: seq<DailySnapshot>,
    backfillCompleted: Option<bool>,
    backfillCompletedAt: Option<int>)

  type Docs = map<string, CompanyMetricsDoc>

  function DateNotIn(dates: set<int>): DailySnapshot -> bool
  {
    (s: DailySnapshot) => s.date !in dates
  }

  function DateIn(dates: set<int>): DailySnapshot -> bool
  {
    (s: DailySnapshot) => s.date in dates
  }

  function DateIs(date: int): DailySnapshot -> bool
  {
    (s: DailySnapshot) => s.date == date
  }

  function DatesOf(ss: seq<DailySnapshot>): (dates: set<int>)
    ensures forall d :: d in dates <==> exists s :: s in ss && s.date == d
  {
    set s | s in ss :: s.date
  }

  /** `findOne({ companyId })`. */
  function GetCompanyMetrics(docs: Docs, companyId: string): (r: Option<CompanyMetricsDoc>)
    ensures r.Some? <==> companyId in docs
    ensures r.Some? ==> r.value == docs[companyId]
  {
    if companyId in docs then Some(docs[companyId]) else None
  }

  /** `storeRawData`: set the raw data and `lastUpdated`; a new document starts
      with an empty history and `backfillCompleted: false`. */
  function StoreRawDataDocs(docs: Docs, companyId: string, rawData: RawData, now: int): (r: Docs)
    ensures companyId in r && r[companyId].rawData == Some(rawData) && r[companyId].lastUpdated == Some(now)
    ensures companyId in docs ==>
      r[companyId] == docs[companyId].(rawData := Some(rawData), lastUpdated := Some(now))
    ensures companyId !in docs ==>
      r[companyId].history == [] && r[companyId].backfillCompleted == Some(false)
      && r[companyId].backfillCompletedAt == None && r[companyId].companyId == companyId
    ensures forall c :: c != companyId ==> (c in r <==> c in docs) && (c in docs ==> r[c] == docs[c])
  {
    if companyId in docs then docs[companyId := docs[companyId].(rawData := Some(rawData), lastUpdated := Some(now))]
    else docs[companyId := CompanyMetricsDoc(companyId, Some(rawData), Some(now), [], Some(false), None)]
  }

  /** `$pull: { history: { date: { $in: dates } } }` without upsert: a missing
      document stays missing. */
  function PullDocs(docs: Docs, companyId: string, dates: set<int>): (r: Docs)
    ensures r.Keys == docs.Keys
    ensures companyId in docs ==> r[companyId] == docs[companyId].(history := Filter(docs[companyId].history, DateNotIn(dates)))
    ensures forall c :: c in docs && c != companyId ==> r[c] == docs[c]
  {
    if companyId in docs then docs[companyId := docs[companyId].(history := Filter(docs[companyId].history, DateNotIn(dates)))]
    else docs
  }

  /** `$push: { history: { $each: ss } }` with `lastUpdated` and upsert: a
      missing document is created holding only these fields. */
  function PushDocs(docs: Docs, companyId: string, ss: seq<DailySnapshot>, now: int): (r: Docs)
    ensures r.Keys == docs.Keys + {companyId}
    ensures companyId in docs ==> r[companyId] == docs[companyId].(history := docs[companyId].history + ss, lastUpdated := Some(now))
    ensures companyId !in docs ==> r[companyId] == CompanyMetricsDoc(companyId, None, Some(now), ss, None, None)
    ensures forall c :: c in docs && c != companyId ==> r[c] == docs[c]
  {
    if companyId in docs then docs[companyId := docs[companyId].(history := docs[companyId].history + ss, lastUpdated := Some(now))]
    else docs[companyId := CompanyMetricsDoc(companyId, None, Some(now), ss, None, None)]
  }

  /** `upsertDailySnapshot`: pull the entry of the snapshot's date, then push the snapshot. */
  function UpsertDailyDocs(docs: Docs, companyId: string, s: DailySnapshot, now: int): Docs
  {
    PushDocs(PullDocs(docs, companyId, {s.date}), companyId, [s], now)
  }

  /** `bulkUpsertSnapshots`: pull every date among the snapshots, then push them all. */
  function BulkUpsertDocs(docs: Docs, companyId: string, ss: seq<DailySnapshot>, now: int): Docs
  {
    PushDocs(PullDocs(docs, companyId, DatesOf(ss)), companyId, ss, now)
  }

  /** The history of a company, empty without a document. */
  function HistoryOf(docs: Docs, companyId: string): seq<DailySnapshot>
  {
    if companyId in docs then docs[companyId].history else []
  }

  /** After a daily upsert, the history is the old one without the snapshot's
      date, in its order, followed by the snapshot: exactly one entry has the
      date, the last one. */
  lemma UpsertDailyHistory(docs: Docs, companyId: string, s: DailySnapshot, now: int)
    ensures HistoryOf(UpsertDailyDocs(docs, companyId, s, now), companyId)
         == Filter(HistoryOf(docs, companyId), DateNotIn({s.date})) + [s]
    ensures Filter(HistoryOf(UpsertDailyDocs(docs, companyId, s, now), companyId), DateIs(s.date)) == [s]
  {
    var h := HistoryOf(docs, companyId);
    var r := HistoryOf(UpsertDailyDocs(docs, companyId, s, now), companyId);
    if companyId !in docs {
      assert Filter(h, DateNotIn({s.date})) == [];
    }
    var kept := Filter(h, DateNotIn({s.date}));
    FilterSnoc(kept, s, DateIs(s.date));
    FilterNone(kept, DateIs(s.date));
  }

  /** A repeated daily upsert of the same snapshot changes only `lastUpdated`. */
  lemma UpsertDailyIdempotent(docs: Docs, companyId: string, s: DailySnapshot, t1: int, t2: int)
    ensures UpsertDailyDocs(UpsertDailyDocs(docs, companyId, s, t1), companyId, s, t2)
         == UpsertDailyDocs(docs, companyId, s, t2)
  {
    var p := DateNotIn({s.date});
    var once := UpsertDailyDocs(docs, companyId, s, t1);
    var twice := UpsertDailyDocs(once, companyId, s, t2);
    var direct := UpsertDailyDocs(docs, companyId, s, t2);
    var kept := Filter(HistoryOf(docs, companyId), p);
    UpsertDailyHistory(docs, companyId, s, t1);
    FilterSnoc(kept, s, p);
    FilterIdempotent(HistoryOf(docs, companyId), p);
    assert kept + [] == kept;
    assert Filter(once[companyId].history, p) == kept;
    if companyId in docs {
      assert twice[companyId] == direct[companyId];
    } else {
      assert kept == [];
      assert twice[companyId] == direct[companyId];
    }
    assert twice.Keys == direct.Keys;
  }

  /** After a bulk upsert, each date among the snapshots has exactly the
      pushed entries of that date, and every other date keeps its entries. */
  lemma BulkUpsertHistory(docs: Docs, companyId: string, ss: seq<DailySnapshot>, now: int, d: int)
    ensures var r := HistoryOf(BulkUpsertDocs(docs, companyId, ss, now), companyId);
      r == Filter(HistoryOf(docs, companyId), DateNotIn(DatesOf(ss))) + ss
      && (d in DatesOf(ss) ==> Filter(r, DateIs(d)) == Filter(ss, DateIs(d)))
      && (d !in DatesOf(ss) ==> Filter(r, DateIs(d)) == Filter(HistoryOf(docs, companyId), DateIs(d)))
  {
    var h := HistoryOf(docs, companyId);
    var dates := DatesOf(ss);
    var kept := Filter(h, DateNotIn(dates));
    if companyId !in docs {
      assert kept == [];
    }
    FilterConcat(kept, ss, DateIs(d));
    if d in dates {
      FilterNone(kept, DateIs(d));
      assert [] + Filter(ss, DateIs(d)) == Filter(ss, DateIs(d));
    } else {
      FilterNone(ss, DateIs(d));
      FilterNarrower(h, DateNotIn(dates), DateIs(d));
      assert Filter(kept, DateIs(d)) + [] == Filter(kept, DateIs(d));
    }
  }

  /** The entries removed by a bulk upsert, and its resulting length. */
  lemma BulkUpsertLength(docs: Docs, companyId: string, ss: seq<DailySnapshot>, now: int)
    ensures |HistoryOf(BulkUpsertDocs(docs, companyId, ss, now), companyId)|
         == |HistoryOf(docs, companyId)| - |Filter(HistoryOf(docs, companyId), DateIn(DatesOf(ss)))| + |ss|
  {
    var h := HistoryOf(docs, companyId);
    var dates := DatesOf(ss);
    FilterPartition(h, DateIn(dates));
    FilterExtensional(h, Not(DateIn(dates)), DateNotIn(dates));
    if companyId !in docs {
      assert Filter(h, DateNotIn(dates)) == [];
    }
  }

  /** `markBackfillCompleted` without upsert: a missing document stays missing. */
  function MarkBackfillCompletedDocs(docs: Docs, companyId: string, now: int): (r: Docs)
    ensures r.Keys == docs.Keys
    ensures companyId in docs ==> r[companyId] == docs[companyId].(backfillCompleted := Some(true), backfillCompletedAt := Some(now))
    ensures forall c :: c in docs && c != companyId ==> r[c] == docs[c]
  {
    if companyId in docs then docs[companyId := docs[companyId].(backfillCompleted := Some(true), backfillCompletedAt := Some(now))]
    else docs
  }

  predicate InDateRange(s: DailySnapshot, start: int, end: int)
  {
    start <= s.date <= end
  }

  function InDateRangeOf(start: int, end: int): DailySnapshot -> bool
  {
    (s: DailySnapshot) => InDateRange(s, start, end)
  }

  /** `getHistoricalSnapshots`: the entries dated within `[start, end]`, in
      history order; `[]` without a document. */
  function GetHistoricalSnapshots(docs: Docs, companyId: string, start: int, end: int): (r: seq<DailySnapshot>)
    ensures SubsequenceOf(r, HistoryOf(docs, companyId))
    ensures forall s :: s in r <==> s in HistoryOf(docs, companyId) && start <= s.date <= end
    ensures companyId !in docs ==> r == []
  {
    FilterIsSubsequence(HistoryOf(docs, companyId), InDateRangeOf(start, end));
    Filter(HistoryOf(docs, companyId), InDateRangeOf(start, end))
  }

  /** The index of the first entry with the date, or `|h|` if none. */
  function FirstIndexOnDate(h: seq<DailySnapshot>, date: int): (i: nat)
    ensures i <= |h|
    ensures i < |h| ==> h[i].date == date
    ensures forall j :: 0 <= j < i ==> h[j].date != date
  {
    FirstIndex(h, DateIs(date))
  }

  /** The first entry of a history with the date, as the positional `$`
      projection returns it. */
  function FirstOnDate(h: seq<DailySnapshot>, date: int): (r: Option<DailySnapshot>)
    ensures r.None? <==> forall s :: s in h ==> s.date != date
    ensures r.Some? ==> r.value.date == date && r.value in h
  {
    var i := FirstIndexOnDate(h, date);
    if i < |h| then Some(h[i]) else None
  }

  /** `getTodaySnapshot`: the first history entry dated today, or null. */
  function GetTodaySnapshot(docs: Docs, companyId: string, today: int): (r: Option<DailySnapshot>)
    ensures r.None? <==> forall s :: s in HistoryOf(docs, companyId) ==> s.date != today
    ensures r.Some? ==> r.value in HistoryOf(docs, companyId) && r.value.date == today
  {
    FirstOnDate(HistoryOf(docs, companyId), today)
  }

  /** After a daily upsert for today, today's snapshot is the one written. */
  lemma UpsertThenToday(docs: Docs, companyId: string, s: DailySnapshot, now: int)
    ensures GetTodaySnapshot(UpsertDailyDocs(docs, companyId, s, now), companyId, s.date) == Some(s)
  {
    var r := HistoryOf(UpsertDailyDocs(docs, companyId, s, now), companyId);
    UpsertDailyHistory(docs, companyId, s, now);
    var t := GetTodaySnapshot(UpsertDailyDocs(docs, companyId, s, now), companyId, s.date);
    assert s in r;
    if t.Some? {
      assert t.value in Filter(r, DateIs(s.date));
    }
  }

  class CompanyMetricsStore {
    var docs: Docs

    constructor()
      ensures docs == map[]
    {
      docs := map[];
    }

    method StoreRawData(companyId: string, rawData: RawData, now: int)
      modifies this
      ensures docs == StoreRawDataDocs(old(docs), companyId, rawData, now)
    {
      docs := StoreRawDataDocs(docs, companyId, rawData, now);
    }

    /** Two separate updates: a failure between them would leave the date pulled. */
    method UpsertDailySnapshot(companyId: string, snapshot: DailySnapshot, now: int)
      modifies this
      ensures docs == UpsertDailyDocs(old(docs), companyId, snapshot, now)
    {
      docs := PullDocs(docs, companyId, {snapshot.date});
      docs := PushDocs(docs, companyId, [snapshot], now);
    }

    method BulkUpsertSnapshots(companyId: string, snapshots: seq<DailySnapshot>, now: int)
      modifies this
      ensures docs == BulkUpsertDocs(old(docs), companyId, snapshots, now)
    {
      var dates := DatesOf(snapshots);
      docs := PullDocs(docs, companyId, dates);
      docs := PushDocs(docs, companyId, snapshots, now);
    }

    method MarkBackfillCompleted(companyId: string, now: int)
      modifies this
      ensures docs == MarkBackfillCompletedDocs(old(docs), companyId, now)
    {
      docs := MarkBackfillCompletedDocs(docs, companyId, now);
    }
  }
}
