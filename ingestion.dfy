/** Ingestion: the SDK list endpoints yield records in the SDK's snake_case
    shape; each fetch function maps every yielded record to the internal shape
    and collects them in yield order. SDK timestamps (date strings) appear here
    already converted to whole seconds; an absent or empty timestamp is `None`. */
module Ingestion {
  import opened Common
  import opened Records

  datatype SdkUser = SdkUser(id: string, username: Option<string>, name: Field<string>)

  datatype SdkMembership = SdkMembership(
    id: string,
    status: string,
    created_at: int,
    canceled_at: Option<int>,
    renewal_period_end: Option<int>,
    cancellation_reason: Option<string>,
    plan: Option<PlanRef>,
    user: Option<SdkUser>)

  datatype SdkMembershipRef = SdkMembershipRef(id: string, status: string)

  datatype SdkPayment = SdkPayment(
    id: string,
    status: Option<string>,
    substatus: Option<string>,
    created_at: int,
    paid_at: Option<int>,
    refunded_at: Option<int>,
    total: Field<real>,
    subtotal: Field<real>,
    refunded_amount: Field<real>,
    amount_after_fees: Field<real>,
    billing_reason: Option<string>,
    plan: Option<PlanRef>,
    membership: Option<SdkMembershipRef>,
    user: Option<string>)

  datatype SdkPlan = SdkPlan(
    id: string,
    renewal_price: Field<real>,
    initial_price: Field<real>,
    billing_period: Field<int>,
    plan_type: Field<string>,
    product: Option<AccessPass>)

  /** A present timestamp as a value, an absent one as `null`. */
  function TimeOrNull(t: Option<int>): (r: Field<int>)
    ensures r == Null <==> t.None?
    ensures t.Some? ==> r == Val(t.value)
  {
    if t.Some? then Val(t.value) else Null
  }

  /** `x || fallback` on an optional string. */
  function OrElse(s: Option<string>, fallback: string): (r: string)
    ensures TruthyStr(s) ==> r == s.value
    ensures !TruthyStr(s) ==> r == fallback
  {
    if TruthyStr(s) then s.value else fallback
  }

  /** `x ?? 0` on a numeric property. */
  function OrZero(x: Field<real>): (r: real)
    ensures x.Val? ==> r == x.v
    ensures !x.Val? ==> r == 0.0
  {
    if x.Val? then x.v else 0.0
  }

  /** The record pushed for one yielded membership. The snake_case fields the
      calculators read are not written, nor is `planData`. */
  function MapMembership(s: SdkMembership): (m: Membership)
    ensures m.id == s.id && m.status == s.status && m.createdAt == Val(s.created_at)
    ensures m.canceledAt == TimeOrNull(s.canceled_at) && m.expiresAt == TimeOrNull(s.renewal_period_end)
    ensures m.cancelationReason == (if TruthyStr(s.cancellation_reason) then Val(s.cancellation_reason.value) else Null)
    ensures m.totalSpend == 0.0
    ensures m.plan == Undefined <==> s.plan.None?
    ensures s.plan.Some? ==> m.plan == Val(s.plan.value)
    ensures m.member == Null <==> s.user.None?
    ensures m.member.Val? ==> m.member.v.id == s.user.value.id && m.member.v.email == ""
    ensures m.member.Val? ==> m.member.v.username == OrElse(s.user.value.username, "") && m.member.v.name == s.user.value.name
    ensures m.canceled_at == Undefined && m.renewal_period_end == Undefined && m.planData == Undefined
  {
    Membership(
      id := s.id,
      status := s.status,
      createdAt := Val(s.created_at),
      canceledAt := TimeOrNull(s.canceled_at),
      expiresAt := TimeOrNull(s.renewal_period_end),
      canceled_at := Undefined,
      renewal_period_end := Undefined,
      cancelationReason := if TruthyStr(s.cancellation_reason) then Val(s.cancellation_reason.value) else Null,
      totalSpend := 0.0,
      plan := if s.plan.Some? then Val(s.plan.value) else Undefined,
      member := if s.user.Some? then Val(Member(s.user.value.id, "", OrElse(s.user.value.username, ""), s.user.value.name)) else Null,
      company := Undefined,
      planData := Undefined)
  }

  /** The record pushed for one yielded payment: status defaults to `pending`,
      substatus to `succeeded`, the amounts to 0 and the billing reason to the
      empty string; present references keep their ids (and the membership its
      status, already a string here), missing ones become empty ids. */
  function MapPayment(s: SdkPayment): (p: Payment)
    ensures p.id == s.id && p.created_at == Val(s.created_at)
    ensures p.status == (if TruthyStr(s.status) then s.status.value else "pending")
    ensures p.substatus == (if TruthyStr(s.substatus) then s.substatus.value else "succeeded")
    ensures p.paid_at == TimeOrNull(s.paid_at) && p.refunded_at == TimeOrNull(s.refunded_at)
    ensures p.total == (if s.total.Val? then s.total.v else 0.0)
    ensures p.subtotal == (if s.subtotal.Val? then s.subtotal.v else 0.0)
    ensures p.refunded_amount == (if s.refunded_amount.Val? then s.refunded_amount.v else 0.0)
    ensures p.amount_after_fees == s.amount_after_fees
    ensures p.billing_reason == (if TruthyStr(s.billing_reason) then s.billing_reason.value else "")
    ensures p.planId == (if s.plan.Some? then s.plan.value.id else "")
    ensures s.membership.Some? ==> p.membershipId == s.membership.value.id && p.membershipStatus == s.membership.value.status
    ensures s.membership.None? ==> p.membershipId == "" && p.membershipStatus == ""
    ensures p.userId == (if s.user.Some? then s.user.value else "")
  {
    Payment(
      id := s.id,
      status := OrElse(s.status, "pending"),
      substatus := OrElse(s.substatus, "succeeded"),
      created_at := Val(s.created_at),
      paid_at := TimeOrNull(s.paid_at),
      refunded_at := TimeOrNull(s.refunded_at),
      total := OrZero(s.total),
      subtotal := OrZero(s.subtotal),
      refunded_amount := OrZero(s.refunded_amount),
      amount_after_fees := s.amount_after_fees,
      billing_reason := OrElse(s.billing_reason, ""),
      planId := if s.plan.Some? then s.plan.value.id else "",
      membershipId := if s.membership.Some? then s.membership.value.id else "",
      membershipStatus := if s.membership.Some? then s.membership.value.status else "",
      userId := if s.user.Some? then s.user.value else "")
  }

  /** The record pushed for one yielded plan: the plan type is collapsed to
      `one_time` or `renewal`, prices and period are kept under their camelCase
      names, and the product becomes the access pass. */
  function MapPlan(s: SdkPlan): (p: Plan)
    ensures p.id == s.id
    ensures p.planType == Val("one_time") <==> s.plan_type == Val("one_time")
    ensures p.planType == Val("one_time") || p.planType == Val("renewal")
    ensures p.rawRenewalPrice == s.renewal_price && p.rawInitialPrice == s.initial_price
    ensures p.billingPeriod == s.billing_period
    ensures p.accessPass == Null <==> s.product.None?
    ensures s.product.Some? ==> p.accessPass == Val(s.product.value)
    ensures p.plan_type == Undefined && p.renewal_price == Undefined && p.billing_period == Undefined
  {
    Plan(
      id := s.id,
      plan_type := Undefined,
      renewal_price := Undefined,
      billing_period := Undefined,
      planType := if s.plan_type == Val("one_time") then Val("one_time") else Val("renewal"),
      rawRenewalPrice := s.renewal_price,
      rawInitialPrice := s.initial_price,
      billingPeriod := s.billing_period,
      accessPass := if s.product.Some? then Val(s.product.value) else Null)
  }

  /** `getAllMemberships`: one mapped record per yielded membership, in yield order. */
  method GetAllMemberships(yielded: seq<SdkMembership>) returns (memberships: seq<Membership>)
    ensures |memberships| == |yielded|
    ensures forall i :: 0 <= i < |yielded| ==> memberships[i] == MapMembership(yielded[i])
  {
    memberships := [];
    var count := 0;
    while count < |yielded|
      invariant 0 <= count <= |yielded| && |memberships| == count
      invariant forall i :: 0 <= i < count ==> memberships[i] == MapMembership(yielded[i])
    {
      memberships := memberships + [MapMembership(yielded[count])];
      count := count + 1;
    }
  }

  /** `getAllPayments`: one mapped record per yielded payment, in yield order. */
  method GetAllPayments(yielded: seq<SdkPayment>) returns (payments: seq<Payment>)
    ensures |payments| == |yielded|
    ensures forall i :: 0 <= i < |yielded| ==> payments[i] == MapPayment(yielded[i])
  {
    payments := [];
    var count := 0;
    while count < |yielded|
      invariant 0 <= count <= |yielded| && |payments| == count
      invariant forall i :: 0 <= i < count ==> payments[i] == MapPayment(yielded[i])
    {
      payments := payments + [MapPayment(yielded[count])];
      count := count + 1;
    }
  }

  /** `getAllPlans`: one mapped record per yielded plan, in yield order. */
  method GetAllPlans(yielded: seq<SdkPlan>) returns (plans: seq<Plan>)
    ensures |plans| == |yielded|
    ensures forall i :: 0 <= i < |yielded| ==> plans[i] == MapPlan(yielded[i])
  {
    plans := [];
    var count := 0;
    while count < |yielded|
      invariant 0 <= count <= |yielded| && |plans| == count
      invariant forall i :: 0 <= i < count ==> plans[i] == MapPlan(yielded[i])
    {
      plans := plans + [MapPlan(yielded[count])];
      count := count + 1;
    }
  }
}
