/** The `companies` collection, a list of documents in insertion order.
    `create` inserts without checking the id, so a Whop company id can occur
    more than once; every update and lookup acts on the first document with
    the id, as `updateOne` and `findOne` do. A field set to `undefined` is
    stored as null (`None`). Times are milliseconds. */
module CompanyRepository {
  import opened Common

  /** The fields `registerCompany` sets from the Whop company. `rawData` is a
      serialised object of unknown shape. */
  datatype CompanyInfo = CompanyInfo(
    title: string,
    route: string,
    logo: Option<string>,
    industryType: Option<string>,
    businessType: Option<string>,
    userId: Option<string>,
    rawData: Option<string>)

  /** A stored company. `backfillCompleted` is false when the field is absent. */
  datatype Company = Company(
    companyId: string,
    info: CompanyInfo,
    createdAt: int,
    updatedAt: int,
    lastSyncAt: Option<int>,
    backfillCompleted: bool,
    backfillCompletedAt: Option<int>)

  /** A `Partial<Company>` of the fields `update` may be given: `None` leaves a
      field alone, `Some(v)` sets it to `v`. */
  datatype CompanyPatch = CompanyPatch(
    title: Option<string>,
    route: Option<string>,
    logo: Option<Option<string>>,
    userId: Option<Option<string>>,
    lastSyncAt: Option<Option<int>>)

  function SetIf<T>(patch: Option<T>, current: T): T
  {
    if patch.Some? then patch.value else current
  }

  /** `$set: { ...updates, updatedAt: now }` on one document. */
  function ApplyPatch(c: Company, patch: CompanyPatch, now: int): (r: Company)
    ensures r.companyId == c.companyId && r.createdAt == c.createdAt && r.updatedAt == now
    ensures r.backfillCompleted == c.backfillCompleted && r.backfillCompletedAt == c.backfillCompletedAt
    ensures patch == CompanyPatch(None, None, None, None, None) ==> r == c.(updatedAt := now)
  {
    c.(info := c.info.(title := SetIf(patch.title, c.info.title),
                       route := SetIf(patch.route, c.info.route),
                       logo := SetIf(patch.logo, c.info.logo),
                       userId := SetIf(patch.userId, c.info.userId)),
       lastSyncAt := SetIf(patch.lastSyncAt, c.lastSyncAt),
       updatedAt := now)
  }

  /** The index of the first document with the company id, or `|docs|`. */
  function FirstWithId(docs: seq<Company>, companyId: string): (i: nat)
    ensures i <= |docs|
    ensures i < |docs| ==> docs[i].companyId == companyId
    ensures forall j :: 0 <= j < i ==> docs[j].companyId != companyId
  {
    FirstIndex(docs, HasId(companyId))
  }

  function HasId(companyId: string): Company -> bool
  {
    (c: Company) => c.companyId == companyId
  }

  /** The number of documents with the company id. */
  function IdCount(docs: seq<Company>, companyId: string): nat
  {
    |Filter(docs, HasId(companyId))|
  }

  /** `findByWhopCompanyId`: the first document with the id, or null. */
  function FindByWhopCompanyId(docs: seq<Company>, companyId: string): (r: Option<Company>)
    ensures r.None? <==> forall c :: c in docs ==> c.companyId != companyId
    ensures r.Some? ==> r.value in docs && r.value.companyId == companyId
  {
    var i := FirstWithId(docs, companyId);
    if i < |docs| then Some(docs[i]) else None
  }

  /** `getAllCompanies`: every document. */
  function GetAllCompanies(docs: seq<Company>): (r: seq<Company>)
    ensures forall c :: c in r <==> c in docs
    ensures |r| == |docs|
  {
    docs
  }

  /** `registerCompany`: `findOneAndUpdate` with upsert. An existing document
      gets the listed fields and `updatedAt`; otherwise a document is appended
      with `companyId` and `createdAt` set on insert. */
  function RegisterDocs(docs: seq<Company>, id: string, info: CompanyInfo, now: int): seq<Company>
  {
    var i := FirstWithId(docs, id);
    if i < |docs| then docs[i := docs[i].(info := info, updatedAt := now)]
    else docs + [Company(id, info, now, now, None, false, None)]
  }

  /** The document `registerCompany` returns: the one matched, after the update. */
  function RegisteredCompany(docs: seq<Company>, id: string, info: CompanyInfo, now: int): (r: Company)
    ensures r.companyId == id && r.info == info && r.updatedAt == now
    ensures (exists c :: c in docs && c.companyId == id) ==> r.createdAt == FindByWhopCompanyId(docs, id).value.createdAt
    ensures (forall c :: c in docs ==> c.companyId != id) ==> r.createdAt == now && !r.backfillCompleted && r.lastSyncAt.None?
  {
    var i := FirstWithId(docs, id);
    if i < |docs| then docs[i].(info := info, updatedAt := now)
    else Company(id, info, now, now, None, false, None)
  }

  /** Registering leaves the length alone for a known id and adds one document
      for a new one; documents of other ids are untouched. */
  lemma RegisterEffect(docs: seq<Company>, id: string, info: CompanyInfo, now: int)
    ensures var r := RegisterDocs(docs, id, info, now);
      (FindByWhopCompanyId(docs, id).Some? ==> |r| == |docs|)
      && (FindByWhopCompanyId(docs, id).None? ==> |r| == |docs| + 1)
      && Filter(r, Not(HasId(id))) == Filter(docs, Not(HasId(id)))
  {
    var i := FirstWithId(docs, id);
    var p := Not(HasId(id));
    var r := RegisterDocs(docs, id, info, now);
    if i < |docs| {
      assert docs == docs[..i] + [docs[i]] + docs[i + 1..];
      assert r == docs[..i] + [r[i]] + docs[i + 1..];
      FilterConcat(docs[..i] + [docs[i]], docs[i + 1..], p);
      FilterConcat(docs[..i], [docs[i]], p);
      FilterConcat(docs[..i] + [r[i]], docs[i + 1..], p);
      FilterConcat(docs[..i], [r[i]], p);
      FilterNone([docs[i]], p);
      FilterNone([r[i]], p);
    } else {
      FilterSnoc(docs, Company(id, info, now, now, None, false, None), p);
    }
  }

  /** Registering never makes a second document for an id: with at most one
      before there is exactly one after, and looking the id up gives the
      returned document. */
  lemma RegisterThenFind(docs: seq<Company>, id: string, info: CompanyInfo, now: int)
    requires IdCount(docs, id) <= 1
    ensures IdCount(RegisterDocs(docs, id, info, now), id) == 1
    ensures FindByWhopCompanyId(RegisterDocs(docs, id, info, now), id) == Some(RegisteredCompany(docs, id, info, now))
  {
    var i := FirstWithId(docs, id);
    var p := HasId(id);
    var r := RegisterDocs(docs, id, info, now);
    FirstWithIdIs(r, id, i);
    if i < |docs| {
      assert docs == docs[..i] + [docs[i]] + docs[i + 1..];
      assert r == docs[..i] + [r[i]] + docs[i + 1..];
      FilterConcat(docs[..i] + [docs[i]], docs[i + 1..], p);
      FilterConcat(docs[..i], [docs[i]], p);
      FilterConcat(docs[..i] + [r[i]], docs[i + 1..], p);
      FilterConcat(docs[..i], [r[i]], p);
      assert Filter([docs[i]], p) == [docs[i]];
      assert Filter([r[i]], p) == [r[i]];
    } else {
      FilterSnoc(docs, Company(id, info, now, now, None, false, None), p);
      FilterNone(docs, p);
    }
  }

  lemma FirstWithIdIs(docs: seq<Company>, companyId: string, i: nat)
    requires i < |docs| && docs[i].companyId == companyId
    requires forall j :: 0 <= j < i ==> docs[j].companyId != companyId
    ensures FirstWithId(docs, companyId) == i
  {
  }

  /** `updateOne({ companyId }, { $set: … })` without upsert: the first
      document with the id is patched; a missing id changes nothing. */
  function UpdateDocs(docs: seq<Company>, companyId: string, patch: CompanyPatch, now: int): (r: seq<Company>)
    ensures |r| == |docs|
    ensures forall j :: 0 <= j < |docs| && j != FirstWithId(docs, companyId) ==> r[j] == docs[j]
    ensures (forall c :: c in docs ==> c.companyId != companyId) ==> r == docs
  {
    var i := FirstWithId(docs, companyId);
    if i < |docs| then docs[i := ApplyPatch(docs[i], patch, now)] else docs
  }

  /** `result.modifiedCount > 0`: a document matched and the update changed it. */
  function Modified(docs: seq<Company>, companyId: string, patch: CompanyPatch, now: int): (r: bool)
    ensures r <==> UpdateDocs(docs, companyId, patch, now) != docs
    ensures r ==> exists c :: c in docs && c.companyId == companyId
  {
    var i := FirstWithId(docs, companyId);
    if i < |docs| then
      assert UpdateDocs(docs, companyId, patch, now)[i] == ApplyPatch(docs[i], patch, now);
      ApplyPatch(docs[i], patch, now) != docs[i]
    else false
  }

  /** A matched document whose stored `updatedAt` is not `now` is always modified. */
  lemma UpdateModifiesKnownId(docs: seq<Company>, companyId: string, patch: CompanyPatch, now: int)
    requires FindByWhopCompanyId(docs, companyId).Some?
    requires FindByWhopCompanyId(docs, companyId).value.updatedAt != now
    ensures Modified(docs, companyId, patch, now)
  {
  }

  /** The patch `updateLastSync` applies. */
  function LastSyncPatch(now: int): CompanyPatch
  {
    CompanyPatch(None, None, None, None, Some(Some(now)))
  }

  /** `updateLastSync` records the sync time and touches nothing else of the document. */
  lemma UpdateLastSyncEffect(docs: seq<Company>, companyId: string, now: int)
    requires FindByWhopCompanyId(docs, companyId).Some?
    ensures var i := FirstWithId(docs, companyId);
      UpdateDocs(docs, companyId, LastSyncPatch(now), now)[i]
        == docs[i].(lastSyncAt := Some(now), updatedAt := now)
  {
  }

  /** `create`: insert with fresh timestamps, without checking the id. */
  function CreateDocs(docs: seq<Company>, company: Company, now: int): (r: seq<Company>)
    ensures r == docs + [company.(createdAt := now, updatedAt := now)]
    ensures IdCount(r, company.companyId) == IdCount(docs, company.companyId) + 1
  {
    FilterSnoc(docs, company.(createdAt := now, updatedAt := now), HasId(company.companyId));
    docs + [company.(createdAt := now, updatedAt := now)]
  }

  /** Creating a company whose id is registered already leaves two documents for it. */
  lemma CreateCanDuplicate(docs: seq<Company>, company: Company, now: int)
    requires FindByWhopCompanyId(docs, company.companyId).Some?
    ensures IdCount(CreateDocs(docs, company, now), company.companyId) >= 2
  {
    var c := FindByWhopCompanyId(docs, company.companyId).value;
    assert c in Filter(docs, HasId(company.companyId));
  }

  // ---------------------------------------------------------------------------
  // The two operations the services call but the repository does not define,
  // with the contracts their callers rely on.

  /** `markBackfillCompleted`: set the flag and its time on the company's
      document; a missing id changes nothing. */
  function MarkBackfillCompletedDocs(docs: seq<Company>, companyId: string, now: int): seq<Company>
  {
    var i := FirstWithId(docs, companyId);
    if i < |docs| then docs[i := docs[i].(backfillCompleted := true, backfillCompletedAt := Some(now))] else docs
  }

  /** Marking sets the flag and its time on the company's (first) document
      and changes nothing else; a missing id changes nothing. */
  lemma MarkBackfillCompletedDocsEffect(docs: seq<Company>, companyId: string, now: int)
    ensures var r := MarkBackfillCompletedDocs(docs, companyId, now);
      |r| == |docs|
      && (forall j :: 0 <= j < |docs| && j != FirstWithId(docs, companyId) ==> r[j] == docs[j])
      && (FindByWhopCompanyId(docs, companyId).Some? ==>
            r[FirstWithId(docs, companyId)] == docs[FirstWithId(docs, companyId)].(backfillCompleted := true, backfillCompletedAt := Some(now)))
      && (FindByWhopCompanyId(docs, companyId).None? ==> r == docs)
  {
  }

  function NeedsBackfill(c: Company): bool
  {
    !c.backfillCompleted
  }

  /** `getCompaniesNeedingBackfill`: the companies without a completed
      backfill, in collection order. */
  function GetCompaniesNeedingBackfill(docs: seq<Company>): (r: seq<Company>)
    ensures forall c :: c in r <==> c in docs && !c.backfillCompleted
    ensures SubsequenceOf(r, docs)
  {
    FilterIsSubsequence(docs, NeedsBackfill);
    Filter(docs, NeedsBackfill)
  }

  /** Once a company's backfill is marked, its (first) document no longer
      needs one. */
  lemma MarkedCompanyNoLongerNeedsBackfill(docs: seq<Company>, companyId: string, now: int)
    requires FindByWhopCompanyId(docs, companyId).Some?
    ensures FindByWhopCompanyId(MarkBackfillCompletedDocs(docs, companyId, now), companyId).Some?
    ensures FindByWhopCompanyId(MarkBackfillCompletedDocs(docs, companyId, now), companyId).value
        !in GetCompaniesNeedingBackfill(MarkBackfillCompletedDocs(docs, companyId, now))
  {
    var r := MarkBackfillCompletedDocs(docs, companyId, now);
    FirstWithIdIs(r, companyId, FirstWithId(docs, companyId));
  }

  /** `after` keeps every document of `before` in its place with its company
      id, and clears no backfill flag. */
  predicate KeepsDocs(before: seq<Company>, after: seq<Company>)
  {
    |before| <= |after|
    && forall k :: 0 <= k < |before| ==>
         after[k].companyId == before[k].companyId && (before[k].backfillCompleted ==> after[k].backfillCompleted)
  }

  /** The company's (first) document has its backfill marked complete. */
  predicate Marked(docs: seq<Company>, companyId: string)
  {
    FindByWhopCompanyId(docs, companyId).Some? && FindByWhopCompanyId(docs, companyId).value.backfillCompleted
  }

  /** Keeping the documents in place keeps the one an id's lookup finds. */
  lemma FirstWithIdKept(before: seq<Company>, after: seq<Company>, companyId: string)
    requires KeepsDocs(before, after)
    requires FirstWithId(before, companyId) < |before|
    ensures FirstWithId(after, companyId) == FirstWithId(before, companyId)
  {
    FirstWithIdIs(after, companyId, FirstWithId(before, companyId));
  }

  /** A company that is marked stays marked while the documents are kept. */
  lemma MarkedKept(before: seq<Company>, after: seq<Company>, companyId: string)
    requires KeepsDocs(before, after) && Marked(before, companyId)
    ensures Marked(after, companyId)
  {
    FirstWithIdKept(before, after, companyId);
  }

  /** Registering keeps every document in place, with its flag. */
  lemma RegisterKeepsDocs(docs: seq<Company>, id: string, info: CompanyInfo, now: int)
    ensures var r := RegisterDocs(docs, id, info, now);
      KeepsDocs(docs, r) && forall k :: 0 <= k < |docs| ==> r[k].backfillCompleted == docs[k].backfillCompleted
  {
  }

  /** Marking keeps every document in place, touches no document of another
      id, and leaves the company marked when it has a document. */
  lemma MarkKeepsDocs(docs: seq<Company>, companyId: string, now: int)
    ensures var r := MarkBackfillCompletedDocs(docs, companyId, now);
      KeepsDocs(docs, r)
      && (forall k :: 0 <= k < |docs| && docs[k].companyId != companyId ==> r[k] == docs[k])
      && (FindByWhopCompanyId(docs, companyId).Some? ==> Marked(r, companyId))
  {
    var r := MarkBackfillCompletedDocs(docs, companyId, now);
    if FindByWhopCompanyId(docs, companyId).Some? {
      FirstWithIdKept(docs, r, companyId);
    }
  }

  // ---------------------------------------------------------------------------
  // The collection.

  class CompanyStore {
    var docs: seq<Company>

    constructor()
      ensures docs == []
    {
      docs := [];
    }

    method RegisterCompany(id: string, info: CompanyInfo, now: int) returns (r: Company)
      modifies this
      ensures docs == RegisterDocs(old(docs), id, info, now)
      ensures r == RegisteredCompany(old(docs), id, info, now)
    {
      r := RegisteredCompany(docs, id, info, now);
      docs := RegisterDocs(docs, id, info, now);
    }

    /** Returns the caller's company, not the stored document with its timestamps. */
    method Create(company: Company, now: int) returns (r: Company)
      modifies this
      ensures docs == CreateDocs(old(docs), company, now)
      ensures r == company
    {
      docs := CreateDocs(docs, company, now);
      r := company;
    }

    method Update(companyId: string, patch: CompanyPatch, now: int) returns (modified: bool)
      modifies this
      ensures docs == UpdateDocs(old(docs), companyId, patch, now)
      ensures modified <==> docs != old(docs)
    {
      modified := Modified(docs, companyId, patch, now);
      docs := UpdateDocs(docs, companyId, patch, now);
    }

    method UpdateLastSync(companyId: string, now: int) returns (modified: bool)
      modifies this
      ensures docs == UpdateDocs(old(docs), companyId, LastSyncPatch(now), now)
      ensures modified <==> docs != old(docs)
    {
      modified := Update(companyId, LastSyncPatch(now), now);
    }

    method MarkBackfillCompleted(companyId: string, now: int)
      modifies this
      ensures docs == MarkBackfillCompletedDocs(old(docs), companyId, now)
    {
      docs := MarkBackfillCompletedDocs(docs, companyId, now);
    }
  }
}
