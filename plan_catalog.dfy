/** The plan list of the analytics responses: the plans that carry an access
    pass title, one entry per plan id, in order of first appearance. */
module PlanCatalog {
  import opened Common
  import opened Records

  /** `{ id, name }` as the responses list it. */
  datatype PlanEntry = PlanEntry(id: string, name: string)

  /** `plan.accessPass?.title` is truthy. */
  predicate Titled(p: Plan)
  {
    p.accessPass.Val? && p.accessPass.v.title != ""
  }

  /** The entry pushed for a plan; the `'Unknown Plan'` fallback is only
      reachable for an untitled plan, which the filter has already dropped. */
  function EntryOf(p: Plan): PlanEntry
  {
    PlanEntry(p.id, if Titled(p) then p.accessPass.v.title else "Unknown Plan")
  }

  function EntriesOf(plans: seq<Plan>): (r: seq<PlanEntry>)
    ensures |r| == |plans|
    ensures forall i :: 0 <= i < |plans| ==> r[i] == EntryOf(plans[i])
  {
    if |plans| == 0 then [] else EntriesOf(plans[..|plans| - 1]) + [EntryOf(plans[|plans| - 1])]
  }

  /** Some entry of `s` has id `id` (`acc.find(p => p.id === id)` finds one). */
  predicate HasId(s: seq<PlanEntry>, id: string)
  {
    exists j :: 0 <= j < |s| && s[j].id == id
  }

  /** No id occurs twice. */
  predicate DistinctIds(s: seq<PlanEntry>)
  {
    forall i, j :: 0 <= i < j < |s| ==> s[i].id != s[j].id
  }

  function OtherId(id: string): PlanEntry -> bool
  {
    (e: PlanEntry) => e.id != id
  }

  /** The reference definition of de-duplication: keep the head, drop every
      later entry with its id, and continue with the rest. */
  function FirstOccurrences(s: seq<PlanEntry>): seq<PlanEntry>
    decreases |s|
  {
    if |s| == 0 then []
    else [s[0]] + FirstOccurrences(Filter(s[1..], OtherId(s[0].id)))
  }

  /** The plans list of a response built from `plans`. */
  function Catalog(plans: seq<Plan>): seq<PlanEntry>
  {
    FirstOccurrences(EntriesOf(Filter(plans, Titled)))
  }

  lemma HasIdCons(h: PlanEntry, r: seq<PlanEntry>, id: string)
    requires h.id != id
    ensures HasId([h] + r, id) <==> HasId(r, id)
  {
    if HasId([h] + r, id) {
      var j :| 0 <= j < |[h] + r| && ([h] + r)[j].id == id;
      assert r[j - 1].id == id;
    }
    if HasId(r, id) {
      var j :| 0 <= j < |r| && r[j].id == id;
      assert ([h] + r)[j + 1].id == id;
    }
  }

  /** The head is kept and its id dropped from the rest. */
  lemma FirstOccurrencesCons(h: PlanEntry, t: seq<PlanEntry>)
    ensures FirstOccurrences([h] + t) == [h] + FirstOccurrences(Filter(t, OtherId(h.id)))
  {
    assert ([h] + t)[0] == h;
    assert ([h] + t)[1..] == t;
  }

  /** Appending an entry adds it exactly when its id is not listed yet: the
      step the `reduce` takes. */
  lemma {:induction false} FirstOccurrencesSnoc(s: seq<PlanEntry>, x: PlanEntry)
    ensures FirstOccurrences(s + [x])
      == if HasId(FirstOccurrences(s), x.id) then FirstOccurrences(s) else FirstOccurrences(s) + [x]
    decreases |s|
  {
    if |s| == 0 {
      assert [x][1..] == [];
      assert s + [x] == [x];
    } else {
      var h, t := s[0], s[1..];
      var p := OtherId(h.id);
      var rest := Filter(t, p);
      assert s == [h] + t;
      assert FirstOccurrences(s) == [h] + FirstOccurrences(rest) by {
        FirstOccurrencesCons(h, t);
      }
      assert FirstOccurrences(s + [x]) == [h] + FirstOccurrences(Filter(t + [x], p)) by {
        assert s + [x] == [h] + (t + [x]);
        FirstOccurrencesCons(h, t + [x]);
      }
      FilterSnoc(t, x, p);
      if x.id == h.id {
        assert Filter(t + [x], p) == rest;
        assert FirstOccurrences(s)[0].id == x.id;
      } else {
        assert Filter(t + [x], p) == rest + [x];
        FirstOccurrencesSnoc(rest, x);
        HasIdCons(h, FirstOccurrences(rest), x.id);
        if !HasId(FirstOccurrences(rest), x.id) {
          assert [h] + (FirstOccurrences(rest) + [x]) == ([h] + FirstOccurrences(rest)) + [x];
        }
      }
    }
  }

  /** Every kept entry is one of the input's. */
  lemma {:induction false} FirstOccurrencesMembers(s: seq<PlanEntry>)
    ensures forall e :: e in FirstOccurrences(s) ==> e in s
    decreases |s|
  {
    if |s| > 0 {
      FirstOccurrencesMembers(Filter(s[1..], OtherId(s[0].id)));
    }
  }

  /** The kept entries appear in the input's order. */
  lemma {:induction false} FirstOccurrencesSubsequence(s: seq<PlanEntry>)
    ensures SubsequenceOf(FirstOccurrences(s), s)
    decreases |s|
  {
    if |s| > 0 {
      var rest := Filter(s[1..], OtherId(s[0].id));
      FirstOccurrencesSubsequence(rest);
      FilterIsSubsequence(s[1..], OtherId(s[0].id));
      SubsequenceTrans(FirstOccurrences(rest), rest, s[1..]);
      assert FirstOccurrences(s)[1..] == FirstOccurrences(rest);
    }
  }

  /** No id is listed twice. */
  lemma {:induction false} FirstOccurrencesDistinct(s: seq<PlanEntry>)
    ensures DistinctIds(FirstOccurrences(s))
    decreases |s|
  {
    if |s| > 0 {
      var p := OtherId(s[0].id);
      var rest := Filter(s[1..], p);
      FirstOccurrencesDistinct(rest);
      FirstOccurrencesMembers(rest);
      var r := FirstOccurrences(s);
      assert r == [s[0]] + FirstOccurrences(rest);
      forall i, j | 0 <= i < j < |r|
        ensures r[i].id != r[j].id
      {
        if i == 0 {
          assert r[j] in rest;
        } else {
          assert r[i] == FirstOccurrences(rest)[i - 1];
        }
      }
    }
  }

  /** Every id of the input is listed. */
  lemma {:induction false} FirstOccurrencesCover(s: seq<PlanEntry>)
    ensures forall x :: x in s ==> HasId(FirstOccurrences(s), x.id)
    decreases |s|
  {
    if |s| > 0 {
      var h := s[0];
      var rest := Filter(s[1..], OtherId(h.id));
      FirstOccurrencesCover(rest);
      assert FirstOccurrences(s)[0] == h;
      forall x | x in s
        ensures HasId(FirstOccurrences(s), x.id)
      {
        if x.id != h.id {
          assert x in s[1..];
          assert OtherId(h.id)(x);
          assert x in rest;
          HasIdCons(h, FirstOccurrences(rest), x.id);
        }
      }
    }
  }

  /** The first entry of `s` with id `id`, if any. */
  function FirstWithId(s: seq<PlanEntry>, id: string): Option<PlanEntry>
  {
    if |s| == 0 then None
    else if s[0].id == id then Some(s[0])
    else FirstWithId(s[1..], id)
  }

  /** `FirstWithId` finds the entry at the lowest index with that id. */
  lemma {:induction false} FirstWithIdIs(s: seq<PlanEntry>, id: string)
    ensures FirstWithId(s, id).None? <==> !HasId(s, id)
    ensures FirstWithId(s, id).Some? ==>
      exists i :: 0 <= i < |s| && s[i] == FirstWithId(s, id).value && s[i].id == id
        && forall j :: 0 <= j < i ==> s[j].id != id
  {
    if |s| > 0 {
      FirstWithIdIs(s[1..], id);
      if s[0].id != id {
        HasIdCons(s[0], s[1..], id);
        assert [s[0]] + s[1..] == s;
        if FirstWithId(s, id).Some? {
          var i :| 0 <= i < |s[1..]| && s[1..][i] == FirstWithId(s, id).value && s[1..][i].id == id
            && forall j :: 0 <= j < i ==> s[1..][j].id != id;
          assert forall j :: 0 < j < i + 1 ==> s[j].id == s[1..][j - 1].id;
          assert s[i + 1] == s[1..][i];
        }
      }
    }
  }

  /** Dropping the entries of another id does not change which entry comes
      first for `id`. */
  lemma {:induction false} FirstWithIdFiltered(s: seq<PlanEntry>, other: string, id: string)
    requires id != other
    ensures FirstWithId(Filter(s, OtherId(other)), id) == FirstWithId(s, id)
    decreases |s|
  {
    if |s| > 0 {
      FirstWithIdFiltered(s[1..], other, id);
      var f := Filter(s, OtherId(other));
      if OtherId(other)(s[0]) {
        assert f == [s[0]] + Filter(s[1..], OtherId(other));
        assert f[1..] == Filter(s[1..], OtherId(other));
      }
    }
  }

  /** Each kept entry is the first entry of the input with its id. */
  lemma {:induction false} FirstOccurrencesAreFirst(s: seq<PlanEntry>)
    ensures forall e :: e in FirstOccurrences(s) ==> FirstWithId(s, e.id) == Some(e)
    decreases |s|
  {
    if |s| > 0 {
      var h := s[0];
      var rest := Filter(s[1..], OtherId(h.id));
      FirstOccurrencesAreFirst(rest);
      FirstOccurrencesMembers(rest);
      forall e | e in FirstOccurrences(s)
        ensures FirstWithId(s, e.id) == Some(e)
      {
        if e != h {
          assert e in FirstOccurrences(rest);
          assert e in rest;
          assert e.id != h.id;
          FirstWithIdFiltered(s[1..], h.id, e.id);
        }
      }
    }
  }

  /** Every listed entry is the entry of a titled plan, so its name is that
      plan's non-empty title. */
  lemma {:induction false} CatalogOnlyTitled(plans: seq<Plan>)
    ensures forall e :: e in Catalog(plans) ==> exists p :: p in plans && Titled(p) && e == EntryOf(p)
    ensures forall e :: e in Catalog(plans) ==> e.name != ""
  {
    var titled := Filter(plans, Titled);
    var entries := EntriesOf(titled);
    FirstOccurrencesMembers(entries);
    forall e | e in Catalog(plans)
      ensures exists p :: p in plans && Titled(p) && e == EntryOf(p)
    {
      var i :| 0 <= i < |entries| && entries[i] == e;
      assert titled[i] in titled;
    }
  }

  /** No plan id is listed twice. */
  lemma {:induction false} CatalogDistinct(plans: seq<Plan>)
    ensures DistinctIds(Catalog(plans))
  {
    FirstOccurrencesDistinct(EntriesOf(Filter(plans, Titled)));
  }

  /** Every titled plan's id is listed. */
  lemma {:induction false} CatalogCovers(plans: seq<Plan>)
    ensures forall p :: p in plans && Titled(p) ==> HasId(Catalog(plans), p.id)
  {
    var titled := Filter(plans, Titled);
    var entries := EntriesOf(titled);
    FirstOccurrencesCover(entries);
    forall p | p in plans && Titled(p)
      ensures HasId(Catalog(plans), p.id)
    {
      var i :| 0 <= i < |titled| && titled[i] == p;
      assert entries[i] in entries;
    }
  }

  /** The list keeps the plans' order, and each entry is the first titled plan
      with its id. */
  lemma {:induction false} CatalogFirstInOrder(plans: seq<Plan>)
    ensures SubsequenceOf(Catalog(plans), EntriesOf(Filter(plans, Titled)))
    ensures forall e :: e in Catalog(plans) ==> FirstWithId(EntriesOf(Filter(plans, Titled)), e.id) == Some(e)
  {
    FirstOccurrencesSubsequence(EntriesOf(Filter(plans, Titled)));
    FirstOccurrencesAreFirst(EntriesOf(Filter(plans, Titled)));
  }

  /** The accumulator after the `reduce` has seen the first `n` titled plans. */
  function Reduced(titled: seq<Plan>, n: nat): seq<PlanEntry>
    requires n <= |titled|
  {
    if n == 0 then []
    else
      var acc := Reduced(titled, n - 1);
      if HasId(acc, titled[n - 1].id) then acc else acc + [EntryOf(titled[n - 1])]
  }

  /** The `reduce` keeps the first entry of each id: it agrees with the
      reference de-duplication on every prefix. */
  lemma {:induction false} ReducedIsFirstOccurrences(titled: seq<Plan>, n: nat)
    requires n <= |titled|
    ensures Reduced(titled, n) == FirstOccurrences(EntriesOf(titled[..n]))
  {
    if n > 0 {
      ReducedIsFirstOccurrences(titled, n - 1);
      assert titled[..n][..n - 1] == titled[..n - 1];
      assert EntriesOf(titled[..n]) == EntriesOf(titled[..n - 1]) + [EntryOf(titled[n - 1])];
      FirstOccurrencesSnoc(EntriesOf(titled[..n - 1]), EntryOf(titled[n - 1]));
    }
  }

  /** The whole `reduce` builds the catalog. */
  lemma ReducedIsCatalog(plans: seq<Plan>)
    ensures Reduced(Filter(plans, Titled), |Filter(plans, Titled)|) == Catalog(plans)
  {
    var titled := Filter(plans, Titled);
    ReducedIsFirstOccurrences(titled, |titled|);
    assert titled[..|titled|] == titled;
  }

  /** The `filter(...).reduce(...)` that builds the plan list: the accumulator
      gains a plan's entry unless `acc.find` already finds its id. */
  method UniquePlans(plans: seq<Plan>) returns (acc: seq<PlanEntry>)
    ensures acc == Catalog(plans)
  {
    var titled := Filter(plans, Titled);
    acc := [];
    var i := 0;
    while i < |titled|
      invariant 0 <= i <= |titled|
      invariant acc == Reduced(titled, i)
    {
      var plan := titled[i];
      if !HasId(acc, plan.id) {
        acc := acc + [EntryOf(plan)];
      }
      i := i + 1;
    }
    ReducedIsCatalog(plans);
  }
}
