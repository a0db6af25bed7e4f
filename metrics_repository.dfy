/** The `metrics_snapshots` collection: a flat list of documents keyed by
    company and UTC day (stored as the millisecond time of that midnight).
    Queries are functions of the list; the three writes are methods of a class
    holding it. Times are milliseconds. */
module MetricsRepository {
  import opened Common
  import opened Records
  import opened Mrr
  import opened Snapshots

  datatype MetricsDoc = MetricsDoc(companyId: string, date: int, timestamp: int, body: MetricsBody)

  predicate HasKey(d: MetricsDoc, companyId: string, date: int)
  {
    d.companyId == companyId && d.date == date
  }

  function KeyIs(companyId: string, date: int): MetricsDoc -> bool
  {
    d => HasKey(d, companyId, date)
  }

  /** The index of the first document with the key, or `|docs|` if none. */
  function FirstWithKey(docs: seq<MetricsDoc>, companyId: string, date: int): (i: nat)
    ensures i <= |docs|
    ensures i < |docs| ==> HasKey(docs[i], companyId, date)
    ensures forall j :: 0 <= j < i ==> !HasKey(docs[j], companyId, date)
  {
    FirstIndex(docs, KeyIs(companyId, date))
  }

  /** `updateOne({companyId, date}, {$set: {...body, timestamp}, $setOnInsert:
      {companyId, date}}, {upsert: true})`: the first matching document gets
      the new values and timestamp; without one, a document is appended. */
  function UpsertDocs(docs: seq<MetricsDoc>, companyId: string, date: int, timestamp: int, body: MetricsBody): seq<MetricsDoc>
  {
    var i := FirstWithKey(docs, companyId, date);
    if i < |docs| then docs[i := docs[i].(timestamp := timestamp, body := Merge(docs[i].body, body))]
    else docs + [MetricsDoc(companyId, date, timestamp, body)]
  }

  /** After an upsert, a document with the key holds the new values and
      timestamp; no other document changes, and at most one is added. */
  lemma UpsertDocsEffect(docs: seq<MetricsDoc>, companyId: string, date: int, timestamp: int, body: MetricsBody)
    ensures var r := UpsertDocs(docs, companyId, date, timestamp, body);
      var i := FirstWithKey(docs, companyId, date);
      |r| == (if i < |docs| then |docs| else |docs| + 1)
      && i < |r| && HasKey(r[i], companyId, date) && r[i].timestamp == timestamp
      && r[i].body.(rawData := body.rawData, sections := body.sections) == body
      && (forall j :: 0 <= j < |docs| && j != i ==> r[j] == docs[j])
  {
  }

  /** An upsert leaves the documents of every other key as they were, in order. */
  lemma UpsertKeepsOtherKeys(docs: seq<MetricsDoc>, companyId: string, date: int, timestamp: int, body: MetricsBody)
    ensures Filter(UpsertDocs(docs, companyId, date, timestamp, body), Not(KeyIs(companyId, date)))
         == Filter(docs, Not(KeyIs(companyId, date)))
  {
    var i := FirstWithKey(docs, companyId, date);
    var p := Not(KeyIs(companyId, date));
    var r := UpsertDocs(docs, companyId, date, timestamp, body);
    if i < |docs| {
      assert docs == docs[..i] + [docs[i]] + docs[i + 1..];
      assert r == docs[..i] + [r[i]] + docs[i + 1..];
      FilterConcat(docs[..i] + [docs[i]], docs[i + 1..], p);
      FilterConcat(docs[..i], [docs[i]], p);
      FilterConcat(docs[..i] + [r[i]], docs[i + 1..], p);
      FilterConcat(docs[..i], [r[i]], p);
      FilterNone([docs[i]], p);
      FilterNone([r[i]], p);
    } else {
      FilterSnoc(docs, MetricsDoc(companyId, date, timestamp, body), p);
    }
  }

  /** The number of documents with a key. */
  function KeyCount(docs: seq<MetricsDoc>, companyId: string, date: int): nat
  {
    |Filter(docs, KeyIs(companyId, date))|
  }

  /** An upsert never creates a second document for its key: with none or one
      before, there is exactly one after. */
  lemma UpsertLeavesOneDocument(docs: seq<MetricsDoc>, companyId: string, date: int, timestamp: int, body: MetricsBody)
    requires KeyCount(docs, companyId, date) <= 1
    ensures KeyCount(UpsertDocs(docs, companyId, date, timestamp, body), companyId, date) == 1
  {
    var i := FirstWithKey(docs, companyId, date);
    var p := KeyIs(companyId, date);
    var r := UpsertDocs(docs, companyId, date, timestamp, body);
    if i < |docs| {
      assert docs == docs[..i] + [docs[i]] + docs[i + 1..];
      assert r == docs[..i] + [r[i]] + docs[i + 1..];
      FilterConcat(docs[..i] + [docs[i]], docs[i + 1..], p);
      FilterConcat(docs[..i], [docs[i]], p);
      FilterConcat(docs[..i] + [r[i]], docs[i + 1..], p);
      FilterConcat(docs[..i], [r[i]], p);
      assert Filter([docs[i]], p) == [docs[i]];
      assert Filter([r[i]], p) == [r[i]];
    } else {
      FilterSnoc(docs, MetricsDoc(companyId, date, timestamp, body), p);
      FilterNone(docs, p);
    }
  }

  /** Two upserts on the same key, the second listing every optional field,
      leave the same collection as the second alone. */
  lemma SecondUpsertWins(docs: seq<MetricsDoc>, companyId: string, date: int, t1: int, b1: MetricsBody, t2: int, b2: MetricsBody)
    requires Complete(b2)
    ensures UpsertDocs(UpsertDocs(docs, companyId, date, t1, b1), companyId, date, t2, b2)
         == UpsertDocs(docs, companyId, date, t2, b2)
  {
    var i := FirstWithKey(docs, companyId, date);
    var once := UpsertDocs(docs, companyId, date, t1, b1);
    FirstWithKeyAfterUpsert(docs, companyId, date, t1, b1);
    MergeComplete(once[i].body, b2);
    if i < |docs| {
      MergeComplete(docs[i].body, b2);
    }
  }

  /** The upserted document is the first with its key afterwards too. */
  lemma FirstWithKeyAfterUpsert(docs: seq<MetricsDoc>, companyId: string, date: int, timestamp: int, body: MetricsBody)
    ensures FirstWithKey(UpsertDocs(docs, companyId, date, timestamp, body), companyId, date)
         == FirstWithKey(docs, companyId, date)
  {
    var i := FirstWithKey(docs, companyId, date);
    var r := UpsertDocs(docs, companyId, date, timestamp, body);
    FirstWithKeyIs(r, companyId, date, i);
  }

  lemma FirstWithKeyIs(docs: seq<MetricsDoc>, companyId: string, date: int, i: nat)
    requires i < |docs| && HasKey(docs[i], companyId, date)
    requires forall j :: 0 <= j < i ==> !HasKey(docs[j], companyId, date)
    ensures FirstWithKey(docs, companyId, date) == i
  {
  }

  // ---------------------------------------------------------------------------
  // Ordering by date.

  predicate SortedByDate(s: seq<MetricsDoc>)
  {
    forall i, j :: 0 <= i < j < |s| ==> s[i].date <= s[j].date
  }

  function InsertByDate(d: MetricsDoc, s: seq<MetricsDoc>): (r: seq<MetricsDoc>)
    ensures multiset(r) == multiset(s) + multiset{d}
    ensures |r| == |s| + 1
    ensures r[0] == d || (|s| > 0 && r[0] == s[0])
    ensures SortedByDate(s) ==> SortedByDate(r)
  {
    if |s| == 0 then [d]
    else if d.date <= s[0].date then [d] + s
    else
      var tail := InsertByDate(d, s[1..]);
      InsertBehindHead(d, s, tail);
      [s[0]] + tail
  }

  /** Keeping the head in front of the insertion into the rest keeps the order and the elements. */
  lemma InsertBehindHead(d: MetricsDoc, s: seq<MetricsDoc>, tail: seq<MetricsDoc>)
    requires |s| > 0 && s[0].date < d.date
    requires multiset(tail) == multiset(s[1..]) + multiset{d}
    requires |tail| == |s|
    requires tail[0] == d || (|s| > 1 && tail[0] == s[1])
    requires SortedByDate(s[1..]) ==> SortedByDate(tail)
    ensures multiset([s[0]] + tail) == multiset(s) + multiset{d}
    ensures SortedByDate(s) ==> SortedByDate([s[0]] + tail)
  {
    assert s == [s[0]] + s[1..];
    if SortedByDate(s) {
      assert SortedByDate(s[1..]);
      assert s[0].date <= tail[0].date;
    }
  }

  /** `.sort({ date: 1 })`: ascending by date, a permutation of its input. */
  function SortByDate(s: seq<MetricsDoc>): (r: seq<MetricsDoc>)
    ensures multiset(r) == multiset(s)
    ensures SortedByDate(r)
  {
    if |s| == 0 then []
    else
      assert s == [s[0]] + s[1..];
      InsertByDate(s[0], SortByDate(s[1..]))
  }

  // ---------------------------------------------------------------------------
  // Queries.

  predicate InRange(d: MetricsDoc, companyId: string, start: int, end: int)
  {
    d.companyId == companyId && start <= d.date <= end
  }

  function InRangeOf(companyId: string, start: int, end: int): MetricsDoc -> bool
  {
    d => InRange(d, companyId, start, end)
  }

  /** `getSnapshotsByDateRange`: the company's documents dated within
      `[start, end]`, ascending by date. */
  function SnapshotsByDateRange(docs: seq<MetricsDoc>, companyId: string, start: int, end: int): (r: seq<MetricsDoc>)
    ensures SortedByDate(r)
    ensures multiset(r) == multiset(Filter(docs, InRangeOf(companyId, start, end)))
    ensures forall d :: d in r <==> d in docs && d.companyId == companyId && start <= d.date <= end
  {
    var r := SortByDate(Filter(docs, InRangeOf(companyId, start, end)));
    assert forall d :: d in r <==> d in multiset(r);
    r
  }

  predicate OnOrAfter(d: MetricsDoc, companyId: string, start: int)
  {
    d.companyId == companyId && start <= d.date
  }

  function OnOrAfterOf(companyId: string, start: int): MetricsDoc -> bool
  {
    d => OnOrAfter(d, companyId, start)
  }

  /** The first day included by `getRecentSnapshots(days)` at time `now`:
      UTC midnight of the day `days` days earlier. */
  function RecentStart(now: int, days: int): int
  {
    UtcMidnightMs(now - days * MsPerDay)
  }

  /** `getRecentSnapshots`: the company's documents from `RecentStart` on, ascending by date. */
  function RecentSnapshots(docs: seq<MetricsDoc>, companyId: string, days: int, now: int): (r: seq<MetricsDoc>)
    ensures SortedByDate(r)
    ensures multiset(r) == multiset(Filter(docs, OnOrAfterOf(companyId, RecentStart(now, days))))
    ensures forall d :: d in r <==> d in docs && d.companyId == companyId && RecentStart(now, days) <= d.date
  {
    var r := SortByDate(Filter(docs, OnOrAfterOf(companyId, RecentStart(now, days))));
    assert forall d :: d in r <==> d in multiset(r);
    r
  }

  /** A document of maximal date, or none for an empty list. */
  function Latest(s: seq<MetricsDoc>): (r: Option<MetricsDoc>)
    ensures r.None? <==> |s| == 0
    ensures r.Some? ==> r.value in s && forall d :: d in s ==> d.date <= r.value.date
  {
    if |s| == 0 then None
    else
      var rest := Latest(s[1..]);
      assert forall d :: d in s ==> d == s[0] || d in s[1..];
      if rest.None? || s[0].date >= rest.value.date then Some(s[0]) else rest
  }

  function OfCompany(companyId: string): MetricsDoc -> bool
  {
    (d: MetricsDoc) => d.companyId == companyId
  }

  function WithRawData(companyId: string): MetricsDoc -> bool
  {
    (d: MetricsDoc) => d.companyId == companyId && d.body.rawData.Some?
  }

  /** `getLatestSnapshot`: a company document of maximal date, or null. */
  function LatestSnapshot(docs: seq<MetricsDoc>, companyId: string): (r: Option<MetricsDoc>)
    ensures r.None? <==> forall d :: d in docs ==> d.companyId != companyId
    ensures r.Some? ==> r.value in docs && r.value.companyId == companyId
    ensures r.Some? ==> forall d :: d in docs && d.companyId == companyId ==> d.date <= r.value.date
  {
    Latest(Filter(docs, OfCompany(companyId)))
  }

  /** `getLatestSnapshotWithRawData`: the same among documents carrying raw data. */
  function LatestSnapshotWithRawData(docs: seq<MetricsDoc>, companyId: string): (r: Option<MetricsDoc>)
    ensures r.None? <==> forall d :: d in docs && d.companyId == companyId ==> d.body.rawData.None?
    ensures r.Some? ==> r.value in docs && r.value.companyId == companyId && r.value.body.rawData.Some?
    ensures r.Some? ==> forall d :: d in docs && d.companyId == companyId && d.body.rawData.Some? ==> d.date <= r.value.date
  {
    Latest(Filter(docs, WithRawData(companyId)))
  }

  /** `Latest` picks the first document of maximal date. */
  lemma {:induction false} LatestIsFirstMax(s: seq<MetricsDoc>, k: nat)
    requires k < |s|
    requires forall d :: d in s ==> d.date <= s[k].date
    requires forall j :: 0 <= j < k ==> s[j].date < s[k].date
    ensures Latest(s) == Some(s[k])
    decreases |s|
  {
    assert forall d :: d in s[1..] ==> d in s;
    if k > 0 {
      LatestIsFirstMax(s[1..], k - 1);
    }
  }

  /** Every document after an upsert was there before or carries the key. */
  lemma {:induction false} UpsertDocsMembers(docs: seq<MetricsDoc>, companyId: string, date: int, timestamp: int, body: MetricsBody)
    ensures forall d :: d in UpsertDocs(docs, companyId, date, timestamp, body) ==> d in docs || HasKey(d, companyId, date)
  {
    UpsertDocsEffect(docs, companyId, date, timestamp, body);
    var r := UpsertDocs(docs, companyId, date, timestamp, body);
    var i := FirstWithKey(docs, companyId, date);
    forall d | d in r
      ensures d in docs || HasKey(d, companyId, date)
    {
      var j :| 0 <= j < |r| && r[j] == d;
      if j != i {
        assert r[j] == docs[j];
      }
    }
  }

  /** Upserting a body with raw data under a date no later than any of the
      company's raw-data documents makes it what `getLatestSnapshotWithRawData`
      returns. */
  lemma {:induction false} LatestAfterUpsert(docs: seq<MetricsDoc>, companyId: string, date: int, timestamp: int, body: MetricsBody)
    requires body.rawData.Some?
    requires forall d :: d in docs && d.companyId == companyId && d.body.rawData.Some? ==> d.date <= date
    ensures var r := UpsertDocs(docs, companyId, date, timestamp, body);
      var i := FirstWithKey(docs, companyId, date);
      i < |r| && LatestSnapshotWithRawData(r, companyId) == Some(r[i])
  {
    UpsertDocsEffect(docs, companyId, date, timestamp, body);
    UpsertDocsMembers(docs, companyId, date, timestamp, body);
    var r := UpsertDocs(docs, companyId, date, timestamp, body);
    var i := FirstWithKey(docs, companyId, date);
    var p := WithRawData(companyId);
    assert p(r[i]);
    assert r[..i] == docs[..i];
    FilterAt(r, i, p);
    var f := Filter(r, p);
    var k := |Filter(r[..i], p)|;
    forall j | 0 <= j < k
      ensures f[j].date < r[i].date
    {
      assert f[j] in Filter(docs[..i], p);
      var j' :| 0 <= j' < i && docs[j'] == f[j];
      assert !HasKey(docs[j'], companyId, date);
    }
    LatestIsFirstMax(f, k);
  }

  /** The latest document with raw data is never later than the latest document. */
  lemma LatestWithRawDataNoLater(docs: seq<MetricsDoc>, companyId: string)
    ensures LatestSnapshotWithRawData(docs, companyId).Some? ==>
      LatestSnapshot(docs, companyId).Some?
      && LatestSnapshotWithRawData(docs, companyId).value.date <= LatestSnapshot(docs, companyId).value.date
  {
    var w := LatestSnapshotWithRawData(docs, companyId);
    if w.Some? {
      assert w.value in docs && w.value.companyId == companyId;
    }
  }

  function FreshSince(companyId: string, since: int): MetricsDoc -> bool
  {
    (d: MetricsDoc) => d.companyId == companyId && d.timestamp >= since
  }

  /** `hasFreshSnapshot`: some company document was written within the last day. */
  function HasFreshSnapshot(docs: seq<MetricsDoc>, companyId: string, now: int): (r: bool)
    ensures r <==> exists d :: d in docs && d.companyId == companyId && d.timestamp >= now - MsPerDay
  {
    var recent := Filter(docs, FreshSince(companyId, now - MsPerDay));
    assert |recent| > 0 ==> recent[0] in recent;
    |recent| > 0
  }

  /** One row of `getDailyMetrics`, with the day as a day number. */
  datatype DailyMetrics = DailyMetrics(date: int, mrr: JsNumber, arr: JsNumber, activeSubscribers: int, arpu: JsNumber)

  function DailyMetricsOf(d: MetricsDoc): DailyMetrics
  {
    DailyMetrics(d.date / MsPerDay, d.body.mrr.total, d.body.arr, d.body.activeUniqueSubscribers, d.body.arpu)
  }

  /** `getDailyMetrics`: one row per recent snapshot, in the same order. */
  function GetDailyMetrics(docs: seq<MetricsDoc>, companyId: string, days: int, now: int): (r: seq<DailyMetrics>)
    ensures |r| == |RecentSnapshots(docs, companyId, days, now)|
    ensures forall i :: 0 <= i < |r| ==>
      var d := RecentSnapshots(docs, companyId, days, now)[i];
      r[i].mrr == d.body.mrr.total && r[i].arr == d.body.arr
      && r[i].activeSubscribers == d.body.activeUniqueSubscribers && r[i].arpu == d.body.arpu
      && r[i].date * MsPerDay <= d.date < (r[i].date + 1) * MsPerDay
  {
    var recent := RecentSnapshots(docs, companyId, days, now);
    seq(|recent|, i requires 0 <= i < |recent| => DailyMetricsOf(recent[i]))
  }

  predicate OlderThan(d: MetricsDoc, companyId: string, cutoff: int)
  {
    d.companyId == companyId && d.date < cutoff
  }

  function OlderThanOf(companyId: string, cutoff: int): MetricsDoc -> bool
  {
    d => OlderThan(d, companyId, cutoff)
  }

  /** What `deleteMany` keeps, and how many it removes. */
  lemma DeleteCount(docs: seq<MetricsDoc>, companyId: string, cutoff: int)
    ensures |Filter(docs, Not(OlderThanOf(companyId, cutoff)))| + |Filter(docs, OlderThanOf(companyId, cutoff))| == |docs|
  {
    FilterPartition(docs, OlderThanOf(companyId, cutoff));
  }

  // ---------------------------------------------------------------------------
  // The collection.

  class MetricsStore {
    var docs: seq<MetricsDoc>

    constructor()
      ensures docs == []
    {
      docs := [];
    }

    /** `createSnapshot`: insert unconditionally. */
    method CreateSnapshot(doc: MetricsDoc) returns (r: MetricsDoc)
      modifies this
      ensures docs == old(docs) + [doc]
      ensures r == doc
      ensures KeyCount(docs, doc.companyId, doc.date) == KeyCount(old(docs), doc.companyId, doc.date) + 1
    {
      FilterSnoc(docs, doc, KeyIs(doc.companyId, doc.date));
      docs := docs + [doc];
      r := doc;
    }

    /** `upsertDailySnapshot`: always keyed on today's UTC midnight at time `now`. */
    method UpsertDailySnapshot(companyId: string, body: MetricsBody, now: int)
      modifies this
      ensures docs == UpsertDocs(old(docs), companyId, UtcMidnightMs(now), now, body)
    {
      docs := UpsertDocs(docs, companyId, UtcMidnightMs(now), now, body);
    }

    /** `deleteOldSnapshots`: remove the company's documents dated before
      `daysToKeep` days ago and report how many went. */
    method DeleteOldSnapshots(companyId: string, daysToKeep: int, now: int) returns (deletedCount: nat)
      modifies this
      ensures docs == Filter(old(docs), Not(OlderThanOf(companyId, now - daysToKeep * MsPerDay)))
      ensures deletedCount == |Filter(old(docs), OlderThanOf(companyId, now - daysToKeep * MsPerDay))|
      ensures deletedCount == |old(docs)| - |docs|
    {
      var cutoff := now - daysToKeep * MsPerDay;
      var kept := Filter(docs, Not(OlderThanOf(companyId, cutoff)));
      DeleteCount(docs, companyId, cutoff);
      deletedCount := |docs| - |kept|;
      docs := kept;
    }
  }
}
