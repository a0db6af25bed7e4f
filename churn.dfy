/** Churn between two periods: customer churn, revenue churn and net revenue
    retention. This calculator reads memberships in the REST shape, with
    `valid`, `user_id` and a priced `plan`. */
module Churn {
  import opened Common
  import opened Mrr

  datatype PricedPlan = PricedPlan(price: real, billing_period: string)

  datatype ChurnMembership = ChurnMembership(status: string, valid: bool, user_id: string, plan: Field<PricedPlan>)

  datatype ChurnMetrics = ChurnMetrics(customerChurnRate: real, revenueChurnRate: real, netRevenueRetention: real)

  predicate ActiveValid(m: ChurnMembership)
  {
    m.status == "active" && m.valid
  }

  function IsActiveValid(): ChurnMembership -> bool
  {
    m => ActiveValid(m)
  }

  /** The user ids of the active, valid memberships. */
  function UserIds(ms: seq<ChurnMembership>): set<string>
  {
    set m | m in ms && ActiveValid(m) :: m.user_id
  }

  function NotAmong(ids: set<string>): ChurnMembership -> bool
  {
    (m: ChurnMembership) => m.user_id !in ids
  }

  function PreviousActive(previous: seq<ChurnMembership>): seq<ChurnMembership>
  {
    Filter(previous, IsActiveValid())
  }

  /** The previously active memberships whose user is not active now. */
  function Churned(current: seq<ChurnMembership>, previous: seq<ChurnMembership>): seq<ChurnMembership>
  {
    Filter(PreviousActive(previous), NotAmong(UserIds(current)))
  }

  /** What one membership adds to an MRR sum: nothing without a plan. */
  function PlanMonthly(m: ChurnMembership): real
  {
    if m.plan.Val? then NormalizePriceToMonthly(m.plan.v.price, m.plan.v.billing_period) else 0.0
  }

  /** `reduce((sum, m) => m.plan ? sum + normalizePriceToMonthly(...) : sum, 0)`. */
  function PlanMrr(ms: seq<ChurnMembership>): real
  {
    if |ms| == 0 then 0.0 else PlanMonthly(ms[0]) + PlanMrr(ms[1..])
  }

  /** `calculateChurnMetrics`. */
  function CalculateChurnMetrics(current: seq<ChurnMembership>, previous: seq<ChurnMembership>): (r: ChurnMetrics)
    ensures |PreviousActive(previous)| == 0 ==> r.customerChurnRate == 0.0
    ensures IsPercentOf(r.customerChurnRate, |Churned(current, previous)| as real, |PreviousActive(previous)| as real)
    ensures 0.0 <= r.customerChurnRate <= 100.0
    ensures PlanMrr(PreviousActive(previous)) <= 0.0 ==> r.revenueChurnRate == 0.0 && r.netRevenueRetention == 100.0
    ensures IsPercentOf(r.netRevenueRetention, PlanMrr(Filter(current, IsActiveValid())), PlanMrr(PreviousActive(previous)))
    ensures IsPercentOf(r.revenueChurnRate, PlanMrr(Churned(current, previous)), PlanMrr(PreviousActive(previous)))
    ensures (forall m :: m in previous && m.plan.Val? ==> m.plan.v.price >= 0.0) ==>
      0.0 <= r.revenueChurnRate <= 100.0
  {
    var currentUserIds := UserIds(current);
    var previousActiveUsers := PreviousActive(previous);
    var churnedUsers := Churned(current, previous);
    var previousActiveCount := |previousActiveUsers|;
    var customerChurnRate := PercentOr(|churnedUsers| as real, previousActiveCount as real, 0.0);
    var previousMRR := PlanMrr(previousActiveUsers);
    var churnedMRR := PlanMrr(churnedUsers);
    var revenueChurnRate := PercentOr(churnedMRR, previousMRR, 0.0);
    var currentMRR := PlanMrr(Filter(current, IsActiveValid()));
    var netRevenueRetention := PercentOr(currentMRR, previousMRR, 100.0);
    RevenueChurnBounded(current, previous);
    ChurnMetrics(customerChurnRate, revenueChurnRate, netRevenueRetention)
  }

  lemma RevenueChurnBounded(current: seq<ChurnMembership>, previous: seq<ChurnMembership>)
    ensures (forall m :: m in previous && m.plan.Val? ==> m.plan.v.price >= 0.0) ==>
      var previousMRR := PlanMrr(PreviousActive(previous));
      0.0 <= PlanMrr(Churned(current, previous)) <= previousMRR
      && (previousMRR > 0.0 ==> 0.0 <= Percent(PlanMrr(Churned(current, previous)), previousMRR) <= 100.0)
  {
    if forall m :: m in previous && m.plan.Val? ==> m.plan.v.price >= 0.0 {
      var previousActiveUsers := PreviousActive(previous);
      var churnedUsers := Churned(current, previous);
      assert forall m :: m in previousActiveUsers ==> m in previous;
      assert forall m :: m in churnedUsers ==> m in previous;
      PlanMrrNonNegative(churnedUsers);
      PlanMrrOfFilterAtMost(previousActiveUsers, NotAmong(UserIds(current)));
    }
  }

  lemma {:induction false} PlanMrrNonNegative(ms: seq<ChurnMembership>)
    requires forall m :: m in ms && m.plan.Val? ==> m.plan.v.price >= 0.0
    ensures PlanMrr(ms) >= 0.0
    decreases |ms|
  {
    if |ms| > 0 {
      assert forall m :: m in ms[1..] ==> m in ms;
      PlanMrrNonNegative(ms[1..]);
    }
  }

  /** With non-negative prices, dropping memberships cannot raise an MRR sum. */
  lemma {:induction false} PlanMrrOfFilterAtMost(ms: seq<ChurnMembership>, p: ChurnMembership -> bool)
    requires forall m :: m in ms && m.plan.Val? ==> m.plan.v.price >= 0.0
    ensures PlanMrr(Filter(ms, p)) <= PlanMrr(ms)
    decreases |ms|
  {
    if |ms| > 0 {
      assert forall m :: m in ms[1..] ==> m in ms;
      PlanMrrOfFilterAtMost(ms[1..], p);
      assert PlanMonthly(ms[0]) >= 0.0;
    }
  }

  /** Churned revenue never exceeds the previous period's revenue (non-negative prices). */
  lemma ChurnedMrrAtMostPrevious(current: seq<ChurnMembership>, previous: seq<ChurnMembership>)
    requires forall m :: m in previous && m.plan.Val? ==> m.plan.v.price >= 0.0
    ensures PlanMrr(Churned(current, previous)) <= PlanMrr(PreviousActive(previous))
  {
    PlanMrrOfFilterAtMost(PreviousActive(previous), NotAmong(UserIds(current)));
  }

  /** Memberships without a plan add nothing to an MRR sum. */
  lemma {:induction false} PlanlessMembershipsAddNothing(ms: seq<ChurnMembership>)
    ensures PlanMrr(ms) == PlanMrr(Filter(ms, HasPlan()))
    decreases |ms|
  {
    if |ms| > 0 {
      PlanlessMembershipsAddNothing(ms[1..]);
    }
  }

  function HasPlan(): ChurnMembership -> bool
  {
    (m: ChurnMembership) => m.plan.Val?
  }

  /** Comparing a period with itself finds no churn. */
  lemma IdenticalPeriodsHaveNoChurn(ms: seq<ChurnMembership>)
    ensures Churned(ms, ms) == []
    ensures CalculateChurnMetrics(ms, ms).customerChurnRate == 0.0
  {
    forall m | m in PreviousActive(ms)
      ensures !NotAmong(UserIds(ms))(m)
    {
      assert m in ms && ActiveValid(m);
    }
    FilterNone(PreviousActive(ms), NotAmong(UserIds(ms)));
  }

  /** A previously active user is churned exactly when no current active, valid
      membership has the same user id. */
  lemma ChurnedExactly(current: seq<ChurnMembership>, previous: seq<ChurnMembership>, m: ChurnMembership)
    ensures m in Churned(current, previous)
        <==> m in previous && ActiveValid(m)
             && !(exists c :: c in current && ActiveValid(c) && c.user_id == m.user_id)
  {
  }
}
