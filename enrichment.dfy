/** Plan enrichment: index the plans by id (a later plan with the same id
    replaces an earlier one, as `Map.set` does) and attach to each membership
    the plan its `plan.id` names. */
module Enrichment {
  import opened Common
  import opened Records

  /** The plan map after `set`-ing every plan in order. */
  function PlanIndex(plans: seq<Plan>): map<string, Plan>
  {
    if |plans| == 0 then map[]
    else PlanIndex(plans[..|plans| - 1])[plans[|plans| - 1].id := plans[|plans| - 1]]
  }

  /** `plans[k]` is the last plan with id `id`. */
  predicate IsLastWithId(plans: seq<Plan>, id: string, k: int)
  {
    0 <= k < |plans| && plans[k].id == id && forall j :: k < j < |plans| ==> plans[j].id != id
  }

  /** An id is in the index exactly when some plan has it, and it maps to the
      last plan carrying that id. */
  lemma {:induction false} PlanIndexIsLastWithId(plans: seq<Plan>, id: string)
    ensures id in PlanIndex(plans) <==> exists i :: 0 <= i < |plans| && plans[i].id == id
    ensures id in PlanIndex(plans) ==> exists k :: IsLastWithId(plans, id, k) && plans[k] == PlanIndex(plans)[id]
    decreases |plans|
  {
    if |plans| > 0 {
      var init, last := plans[..|plans| - 1], plans[|plans| - 1];
      PlanIndexIsLastWithId(init, id);
      if last.id != id && id in PlanIndex(plans) {
        var k :| IsLastWithId(init, id, k) && init[k] == PlanIndex(init)[id];
        assert plans[k] == init[k];
        assert IsLastWithId(plans, id, k);
      }
      if last.id != id {
        assert (exists i :: 0 <= i < |plans| && plans[i].id == id)
            ==> (exists i :: 0 <= i < |init| && init[i].id == id) by {
          if exists i :: 0 <= i < |plans| && plans[i].id == id {
            var i :| 0 <= i < |plans| && plans[i].id == id;
            assert init[i] == plans[i];
          }
        }
        assert (exists i :: 0 <= i < |init| && init[i].id == id)
            ==> (exists i :: 0 <= i < |plans| && plans[i].id == id) by {
          if exists i :: 0 <= i < |init| && init[i].id == id {
            var i :| 0 <= i < |init| && init[i].id == id;
            assert plans[i] == init[i];
          }
        }
      }
    }
  }

  /** `allPlans.forEach(plan => planMap.set(plan.id, plan))`. */
  method BuildPlanMap(plans: seq<Plan>) returns (planMap: map<string, Plan>)
    ensures planMap == PlanIndex(plans)
    ensures forall id :: id in planMap <==> exists p :: p in plans && p.id == id
  {
    planMap := map[];
    var i := 0;
    while i < |plans|
      invariant 0 <= i <= |plans|
      invariant planMap == PlanIndex(plans[..i])
    {
      assert plans[..i + 1][..i] == plans[..i];
      planMap := planMap[plans[i].id := plans[i]];
      i := i + 1;
    }
    assert plans[..i] == plans;
    forall id
      ensures id in planMap <==> exists p :: p in plans && p.id == id
    {
      PlanIndexIsLastWithId(plans, id);
    }
  }

  /** The plan a membership resolves to: `m.plan ? planMap.get(m.plan.id) : undefined`. */
  function PlanDataOf(m: Membership, planMap: map<string, Plan>): (r: Field<Plan>)
    ensures r.Val? <==> m.plan.Val? && m.plan.v.id in planMap
    ensures r.Val? ==> r.v == planMap[m.plan.v.id]
    ensures !r.Val? ==> r == Undefined
  {
    if m.plan.Val? && m.plan.v.id in planMap then Val(planMap[m.plan.v.id]) else Undefined
  }

  /** `memberships.map(m => ({ ...m, planData: … }))`. */
  function Enrich(memberships: seq<Membership>, planMap: map<string, Plan>): (r: seq<Membership>)
    ensures |r| == |memberships|
    ensures forall i :: 0 <= i < |r| ==> r[i].(planData := memberships[i].planData) == memberships[i]
    ensures forall i :: 0 <= i < |r| ==> r[i].planData == PlanDataOf(memberships[i], planMap)
  {
    seq(|memberships|, i requires 0 <= i < |memberships| => memberships[i].(planData := PlanDataOf(memberships[i], planMap)))
  }

  /** With the plan map built from `plans`, an enriched membership carries the
      last plan whose id its plan reference names, and is left without plan
      data exactly when it has no plan reference or no plan matches. */
  lemma EnrichedPlanIsLastMatch(memberships: seq<Membership>, plans: seq<Plan>, i: int)
    requires 0 <= i < |memberships|
    ensures var m := memberships[i]; var r := Enrich(memberships, PlanIndex(plans))[i];
      (r.planData == Undefined <==> !m.plan.Val? || forall p :: p in plans ==> p.id != m.plan.v.id)
      && (r.planData.Val? ==> exists k :: IsLastWithId(plans, m.plan.v.id, k) && plans[k] == r.planData.v)
  {
    var m := memberships[i];
    if m.plan.Val? {
      PlanIndexIsLastWithId(plans, m.plan.v.id);
    }
  }

  /** Enriching twice with the same map gives the same memberships as enriching once. */
  lemma EnrichIdempotent(memberships: seq<Membership>, planMap: map<string, Plan>)
    ensures Enrich(Enrich(memberships, planMap), planMap) == Enrich(memberships, planMap)
  {
  }
}
