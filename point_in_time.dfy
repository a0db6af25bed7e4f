/** Point-in-time reconstruction: which memberships existed, and which
    payments had been made, at a snapshot time `t` (seconds). Missing or zero
    timestamps follow JavaScript's `||`: a falsy creation time reads as 0, a
    falsy cancellation or expiry time as infinitely far in the future. */
module PointInTime {
  import opened Common
  import opened Records

  /** `m.createdAt || 0`. */
  function CreatedOrZero(m: Membership): int
  {
    if TruthyNum(m.createdAt) then m.createdAt.v else 0
  }

  /** `(x || Infinity) > t` (the `=== null` alternative never holds after `||`). */
  predicate EndsAfter(x: Field<int>, t: int)
  {
    !TruthyNum(x) || x.v > t
  }

  /** The membership filter of the backfill loops. */
  predicate ExistedAt(m: Membership, t: int)
  {
    CreatedOrZero(m) <= t && EndsAfter(m.canceledAt, t) && EndsAfter(m.expiresAt, t)
  }

  function ExistedAtTime(t: int): Membership -> bool
  {
    m => ExistedAt(m, t)
  }

  /** `p.paid_at || p.created_at`. */
  function PaidTime(p: Payment): Field<int>
  {
    if TruthyNum(p.paid_at) then p.paid_at else p.created_at
  }

  /** The payment filter: the paid (or else created) time is truthy and not after `t`. */
  predicate PaidBy(p: Payment, t: int)
  {
    TruthyNum(PaidTime(p)) && PaidTime(p).v <= t
  }

  function PaidByTime(t: int): Payment -> bool
  {
    p => PaidBy(p, t)
  }

  function MembershipsOn(ms: seq<Membership>, t: int): (r: seq<Membership>)
    ensures forall m :: m in r <==> m in ms && ExistedAt(m, t)
    ensures |r| <= |ms|
  {
    Filter(ms, ExistedAtTime(t))
  }

  function PaymentsOn(ps: seq<Payment>, t: int): (r: seq<Payment>)
    ensures forall p :: p in r <==> p in ps && PaidBy(p, t)
    ensures |r| <= |ps|
  {
    Filter(ps, PaidByTime(t))
  }

  /** Both filters keep the order of what they keep. */
  lemma FiltersKeepOrder(ms: seq<Membership>, ps: seq<Payment>, t: int)
    ensures SubsequenceOf(MembershipsOn(ms, t), ms)
    ensures SubsequenceOf(PaymentsOn(ps, t), ps)
  {
    FilterIsSubsequence(ms, ExistedAtTime(t));
    FilterIsSubsequence(ps, PaidByTime(t));
  }

  /** The payments visible at an earlier time are a subsequence of those
      visible at a later one. */
  lemma PaymentsGrowWithTime(ps: seq<Payment>, t1: int, t2: int)
    requires t1 <= t2
    ensures SubsequenceOf(PaymentsOn(ps, t1), PaymentsOn(ps, t2))
    ensures |PaymentsOn(ps, t1)| <= |PaymentsOn(ps, t2)|
  {
    FilterWeaker(ps, PaidByTime(t1), PaidByTime(t2));
  }

  /** Membership visibility is not monotone in time: a membership cancelled
      between two snapshot times is in the earlier one and not in the later. */
  lemma CancelledMembershipLeaves(m: Membership, t1: int, t2: int)
    requires ExistedAt(m, t1) && t1 < t2
    requires m.canceledAt.Val? && m.canceledAt.v != 0 && t1 < m.canceledAt.v <= t2
    ensures !ExistedAt(m, t2)
  {
  }

  /** A membership created after `t` (with a truthy creation time) is not kept. */
  lemma NotYetCreated(m: Membership, t: int)
    requires TruthyNum(m.createdAt) && m.createdAt.v > t
    ensures !ExistedAt(m, t)
  {
  }
}
