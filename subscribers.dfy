/** Subscriber counts: one status bucket per membership, and the number of
    distinct members overall and among active memberships. */
module Subscribers {
  import opened Common
  import opened Records
  import opened Mrr

  datatype StatusBucket = Active | Cancelled | Trialing | PastDue | NotCounted

  /** The bucket a membership increments, decided in the order
      active, cancelled, trialing, past due. */
  function Classify(m: Membership, now: int): (b: StatusBucket)
    ensures b == Active <==> IsActive(m, now)
    ensures !IsActive(m, now) && m.canceled_at != Null ==> b == Cancelled
    ensures (m.status == "active" && m.canceled_at == Null
             && m.renewal_period_end.Val? && m.renewal_period_end.v <= now) ==> b == NotCounted
    ensures b == Trialing ==> m.status == "trialing" && m.canceled_at == Null
    ensures b == PastDue ==> m.status == "past_due" && m.canceled_at == Null
  {
    if IsActive(m, now) then Active
    else if m.status == "canceled" || m.canceled_at != Null then Cancelled
    else if m.status == "trialing" then Trialing
    else if m.status == "past_due" then PastDue
    else NotCounted
  }

  function InBucket(now: int, b: StatusBucket): Membership -> bool
  {
    m => Classify(m, now) == b
  }

  /** The number of memberships that fall into bucket `b`. */
  function CountIn(ms: seq<Membership>, now: int, b: StatusBucket): nat
  {
    |Filter(ms, InBucket(now, b))|
  }

  datatype SubscriberMetrics = SubscriberMetrics(active: int, cancelled: int, past_due: int, trialing: int, total: int)

  /** `calculateSubscriberMetrics`: one counter per bucket, incremented in a single
      pass; the total is the sum of the four counters. */
  method CalculateSubscriberMetrics(memberships: seq<Membership>, now: int) returns (r: SubscriberMetrics)
    ensures r.active == CountIn(memberships, now, Active)
    ensures r.cancelled == CountIn(memberships, now, Cancelled)
    ensures r.trialing == CountIn(memberships, now, Trialing)
    ensures r.past_due == CountIn(memberships, now, PastDue)
    ensures r.total == r.active + r.cancelled + r.past_due + r.trialing
    ensures r.total + CountIn(memberships, now, NotCounted) == |memberships|
  {
    var active, cancelled, pastDue, trialing := 0, 0, 0, 0;
    var i := 0;
    while i < |memberships|
      invariant 0 <= i <= |memberships|
      invariant active == CountIn(memberships[..i], now, Active)
      invariant cancelled == CountIn(memberships[..i], now, Cancelled)
      invariant trialing == CountIn(memberships[..i], now, Trialing)
      invariant pastDue == CountIn(memberships[..i], now, PastDue)
    {
      var membership := memberships[i];
      assert memberships[..i + 1] == memberships[..i] + [membership];
      FilterSnoc(memberships[..i], membership, InBucket(now, Active));
      FilterSnoc(memberships[..i], membership, InBucket(now, Cancelled));
      FilterSnoc(memberships[..i], membership, InBucket(now, Trialing));
      FilterSnoc(memberships[..i], membership, InBucket(now, PastDue));
      var isActive := (membership.status == "active" || membership.status == "completed")
        && membership.canceled_at == Null
        && (membership.renewal_period_end == Null
            || (membership.renewal_period_end.Val? && membership.renewal_period_end.v > now));
      if isActive {
        active := active + 1;
      } else if membership.status == "canceled" || membership.canceled_at != Null {
        cancelled := cancelled + 1;
      } else if membership.status == "trialing" {
        trialing := trialing + 1;
      } else if membership.status == "past_due" {
        pastDue := pastDue + 1;
      }
      i := i + 1;
    }
    assert memberships[..i] == memberships;
    BucketsPartition(memberships, now);
    r := SubscriberMetrics(active, cancelled, pastDue, trialing, active + cancelled + pastDue + trialing);
  }

  /** Every membership lands in exactly one of the five buckets. */
  lemma {:induction false} BucketsPartition(ms: seq<Membership>, now: int)
    ensures CountIn(ms, now, Active) + CountIn(ms, now, Cancelled) + CountIn(ms, now, Trialing)
          + CountIn(ms, now, PastDue) + CountIn(ms, now, NotCounted) == |ms|
    decreases |ms|
  {
    if |ms| > 0 {
      var init, x := ms[..|ms| - 1], ms[|ms| - 1];
      assert ms == init + [x];
      BucketsPartition(init, now);
      FilterSnoc(init, x, InBucket(now, Active));
      FilterSnoc(init, x, InBucket(now, Cancelled));
      FilterSnoc(init, x, InBucket(now, Trialing));
      FilterSnoc(init, x, InBucket(now, PastDue));
      FilterSnoc(init, x, InBucket(now, NotCounted));
    }
  }

  /** The subscriber total never exceeds the number of memberships. */
  lemma SubscriberTotalBounded(ms: seq<Membership>, now: int)
    ensures CountIn(ms, now, Active) + CountIn(ms, now, Cancelled) + CountIn(ms, now, Trialing)
          + CountIn(ms, now, PastDue) <= |ms|
  {
    BucketsPartition(ms, now);
  }

  /** Memberships without a `canceled_at` field (the SDK mapping never writes one)
      are all counted as cancelled, whatever their status, and none as active. */
  lemma MembershipsWithoutSnakeCaseFieldsAreCancelled(ms: seq<Membership>, now: int)
    requires forall m :: m in ms ==> m.canceled_at == Undefined
    ensures CountIn(ms, now, Cancelled) == |ms|
    ensures CountIn(ms, now, Active) == 0
  {
    FilterAll(ms, InBucket(now, Cancelled));
    FilterNone(ms, InBucket(now, Active));
  }

  // ---------------------------------------------------------------------------
  // Distinct members.

  /** `memberships.filter(m => m.member).map(m => m.member.id)`. */
  function MemberIds(ms: seq<Membership>): (ids: seq<string>)
    ensures |ids| <= |ms|
  {
    if |ms| == 0 then []
    else (if ms[0].member.Val? then [ms[0].member.v.id] else []) + MemberIds(ms[1..])
  }

  /** An id is listed exactly when some membership's member carries it. */
  lemma {:induction false} MemberIdsExactly(ms: seq<Membership>, x: string)
    ensures x in MemberIds(ms) <==> exists m :: m in ms && m.member.Val? && m.member.v.id == x
    decreases |ms|
  {
    if |ms| > 0 {
      MemberIdsExactly(ms[1..], x);
      assert forall m :: m in ms[1..] ==> m in ms;
      assert forall m :: m in ms ==> m == ms[0] || m in ms[1..];
    }
  }

  /** `getUniqueSubscriberCount`: the number of distinct member ids. */
  function GetUniqueSubscriberCount(ms: seq<Membership>): (r: nat)
    ensures r <= |MemberIds(ms)|
    ensures r <= |ms|
  {
    ElementsBound(MemberIds(ms));
    |Elements(MemberIds(ms))|
  }

  function ActiveAt(now: int): Membership -> bool
  {
    m => IsActive(m, now)
  }

  /** `getActiveUniqueSubscribers`: the number of distinct member ids among
      active memberships that have a member. It is at most the active bucket. */
  function GetActiveUniqueSubscribers(ms: seq<Membership>, now: int): (r: nat)
    ensures r <= CountIn(ms, now, Active)
  {
    var active := Filter(ms, ActiveAt(now));
    ElementsBound(MemberIds(active));
    FilterExtensional(ms, ActiveAt(now), InBucket(now, Active));
    |Elements(MemberIds(active))|
  }

  /** Restricting to active memberships can only lose member ids. */
  lemma ActiveUniqueAtMostUnique(ms: seq<Membership>, now: int)
    ensures GetActiveUniqueSubscribers(ms, now) <= GetUniqueSubscriberCount(ms)
  {
    var active := Filter(ms, ActiveAt(now));
    forall x | x in Elements(MemberIds(active))
      ensures x in Elements(MemberIds(ms))
    {
      MemberIdsExactly(active, x);
      MemberIdsExactly(ms, x);
    }
    SubsetCardinality(Elements(MemberIds(active)), Elements(MemberIds(ms)));
  }

  /** A member id is counted as active exactly when one of its memberships is active. */
  lemma ActiveUniqueExactly(ms: seq<Membership>, now: int, x: string)
    ensures x in Elements(MemberIds(Filter(ms, ActiveAt(now))))
        <==> exists m :: m in ms && IsActive(m, now) && m.member.Val? && m.member.v.id == x
  {
    MemberIdsExactly(Filter(ms, ActiveAt(now)), x);
  }
}
