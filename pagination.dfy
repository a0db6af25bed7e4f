/** The pagination drains. A list endpoint is an oracle: `pages[k]` is the reply
    to the k-th call, and a call past the end of the oracle throws, so every
    drain ends. The cursor a call passes is recorded, not used to pick the
    reply. */
module Pagination {
  import opened Common
  import opened Records

  // ---------------------------------------------------------------------------
  // The GraphQL connections (memberships and plans).

  datatype PageInfo = PageInfo(hasNextPage: Field<bool>, endCursor: Field<string>)

  datatype Connection<T> = Connection(nodes: Field<seq<T>>, pageInfo: Field<PageInfo>)

  /** One call: it throws, or returns a response whose connection may be missing. */
  datatype Reply<T> = Threw | Answered(connection: Field<Connection<T>>)

  function Call<T>(pages: seq<Reply<T>>, k: nat): Reply<T>
  {
    if k < |pages| then pages[k] else Threw
  }

  /** `response?.x?.nodes || []`. */
  function NodesOf<T>(reply: Reply<T>): seq<T>
  {
    if reply.Answered? && reply.connection.Val? && reply.connection.v.nodes.Val?
    then reply.connection.v.nodes.v
    else []
  }

  /** `response?.x?.pageInfo?.hasNextPage || false`. */
  predicate HasNext<T>(reply: Reply<T>)
  {
    reply.Answered? && reply.connection.Val? && reply.connection.v.pageInfo.Val?
    && reply.connection.v.pageInfo.v.hasNextPage == Val(true)
  }

  /** `response?.x?.pageInfo?.endCursor ?? undefined`. */
  function CursorOf<T>(reply: Reply<T>): Option<string>
  {
    if reply.Answered? && reply.connection.Val? && reply.connection.v.pageInfo.Val?
       && reply.connection.v.pageInfo.v.endCursor.Val?
    then Some(reply.connection.v.pageInfo.v.endCursor.v)
    else None
  }

  /** The index of the first call, from `k` on, that throws or reports no next page. */
  function StopAt<T>(pages: seq<Reply<T>>, k: nat): (s: nat)
    requires k <= |pages|
    ensures k <= s <= |pages|
    ensures Call(pages, s).Threw? || !HasNext(Call(pages, s))
    ensures forall j :: k <= j < s ==> !pages[j].Threw? && HasNext(pages[j])
    decreases |pages| - k
  {
    if k == |pages| || pages[k].Threw? || !HasNext(pages[k]) then k else StopAt(pages, k + 1)
  }

  /** The nodes of the first `n` replies, concatenated in call order. */
  function Collected<T>(pages: seq<Reply<T>>, n: nat): seq<T>
  {
    if n == 0 then [] else Collected(pages, n - 1) + NodesOf(Call(pages, n - 1))
  }

  /** What a complete drain yields: a failure if the stopping call threw,
      otherwise every node up to and including the stopping page. */
  function DrainResult<T>(pages: seq<Reply<T>>): Outcome<seq<T>>
  {
    if DrainSucceeds(pages) then Success(Collected(pages, StopAt(pages, 0) + 1)) else Failure
  }

  /** Whether a complete drain succeeds: the stopping call did not throw. */
  predicate DrainSucceeds<T>(pages: seq<Reply<T>>)
  {
    !Call(pages, StopAt(pages, 0)).Threw?
  }

  /** `while (hasNextPage) { … }` over a connection: append the nodes, read
      `hasNextPage` and the cursor, stop when there is no next page. A throwing
      call ends the drain with a failure. */
  method DrainConnection<T>(pages: seq<Reply<T>>) returns (r: Outcome<seq<T>>, calls: nat, cursors: seq<Option<string>>)
    ensures calls == StopAt(pages, 0) + 1
    ensures r == DrainResult(pages)
    ensures |cursors| == calls && cursors[0] == None
    ensures forall k :: 0 < k < calls ==> cursors[k] == CursorOf(pages[k - 1])
  {
    var all: seq<T> := [];
    var hasNextPage := true;
    var cursor: Option<string> := None;
    calls := 0;
    cursors := [];
    while hasNextPage
      invariant calls <= StopAt(pages, 0)
      invariant hasNextPage
      invariant all == Collected(pages, calls)
      invariant |cursors| == calls
      invariant calls == 0 ==> cursor == None
      invariant calls > 0 ==> cursor == CursorOf(pages[calls - 1])
      invariant forall k :: 0 < k < calls ==> cursors[k] == CursorOf(pages[k - 1])
      invariant calls > 0 ==> cursors[0] == None
      decreases |pages| - calls
    {
      var response := Call(pages, calls);
      cursors := cursors + [cursor];
      calls := calls + 1;
      if response.Threw? {
        r := Failure;
        return;
      }
      all := all + NodesOf(response);
      hasNextPage := HasNext(response);
      cursor := CursorOf(response);
      if !hasNextPage {
        break;
      }
    }
    r := Success(all);
  }

  /** Nodes already collected are never lost or reordered by later pages. */
  lemma {:induction false} CollectedPrefix<T>(pages: seq<Reply<T>>, m: nat, n: nat)
    requires m <= n
    ensures Collected(pages, m) <= Collected(pages, n)
    decreases n - m
  {
    if m < n {
      CollectedPrefix(pages, m, n - 1);
    }
  }

  /** Every collected node comes from a reply among the first `n`. */
  lemma {:induction false} CollectedFromPages<T>(pages: seq<Reply<T>>, n: nat, x: T)
    requires x in Collected(pages, n)
    ensures exists k :: 0 <= k < n && x in NodesOf(Call(pages, k))
    decreases n
  {
    if x !in NodesOf(Call(pages, n - 1)) {
      CollectedFromPages(pages, n - 1, x);
    }
  }

  /** A single page that reports no next page is the whole result. */
  lemma SinglePageDrain<T>(pages: seq<Reply<T>>)
    requires |pages| > 0 && pages[0].Answered? && !HasNext(pages[0])
    ensures DrainResult(pages) == Success(NodesOf(pages[0]))
  {
    assert StopAt(pages, 0) == 0;
    assert Call(pages, 0) == pages[0];
    assert Collected(pages, 1) == Collected(pages, 0) + NodesOf(pages[0]);
    assert Collected(pages, 0) + NodesOf(pages[0]) == NodesOf(pages[0]);
  }

  /** A drain that succeeds stopped on a page without a next page, and every
      earlier page had one. */
  lemma DrainStopsOnLastPage<T>(pages: seq<Reply<T>>)
    requires DrainResult(pages).Success?
    ensures StopAt(pages, 0) < |pages| && !HasNext(pages[StopAt(pages, 0)])
    ensures forall j :: 0 <= j < StopAt(pages, 0) ==> HasNext(pages[j])
  {
  }

  // ---------------------------------------------------------------------------
  // The REST payments endpoint.

  datatype RestPageInfo = RestPageInfo(has_next_page: Field<bool>, end_cursor: Field<string>)

  datatype RestReply = RestThrew | RestAnswered(data: Field<seq<Payment>>, page_info: Field<RestPageInfo>)

  function RestCall(pages: seq<RestReply>, k: nat): RestReply
  {
    if k < |pages| then pages[k] else RestThrew
  }

  /** `paymentsData.data || []`. */
  function DataOf(reply: RestReply): seq<Payment>
  {
    if reply.RestAnswered? && reply.data.Val? then reply.data.v else []
  }

  /** `pageInfo && pageInfo.has_next_page && pageInfo.end_cursor`: the loop goes on
      only with a next page and a non-empty cursor. */
  predicate RestContinues(reply: RestReply)
  {
    reply.RestAnswered? && reply.page_info.Val? && reply.page_info.v.has_next_page == Val(true)
    && reply.page_info.v.end_cursor.Val? && reply.page_info.v.end_cursor.v != ""
  }

  /** The index of the first call, from `k` on, that throws, returns no
      payments, or gives no way to continue. */
  function RestStopAt(pages: seq<RestReply>, k: nat): (s: nat)
    requires k <= |pages|
    ensures k <= s <= |pages|
    ensures RestCall(pages, s).RestThrew? || |DataOf(RestCall(pages, s))| == 0 || !RestContinues(RestCall(pages, s))
    ensures forall j :: k <= j < s ==> |DataOf(pages[j])| > 0 && RestContinues(pages[j])
    decreases |pages| - k
  {
    if k == |pages| || pages[k].RestThrew? || |DataOf(pages[k])| == 0 || !RestContinues(pages[k]) then k
    else RestStopAt(pages, k + 1)
  }

  function RestCollected(pages: seq<RestReply>, n: nat): seq<Payment>
  {
    if n == 0 then [] else RestCollected(pages, n - 1) + DataOf(RestCall(pages, n - 1))
  }

  function RestDrainResult(pages: seq<RestReply>): Outcome<seq<Payment>>
  {
    if RestDrainSucceeds(pages) then Success(RestCollected(pages, RestStopAt(pages, 0) + 1)) else Failure
  }

  /** Whether the payments drain succeeds: the stopping call did not throw. */
  predicate RestDrainSucceeds(pages: seq<RestReply>)
  {
    !RestCall(pages, RestStopAt(pages, 0)).RestThrew?
  }

  /** The payments loop: an empty page ends it without being appended; a
      non-empty page is appended, and the loop continues with its cursor only
      when it reports a next page and a cursor. */
  method DrainPayments(pages: seq<RestReply>) returns (r: Outcome<seq<Payment>>, calls: nat, afters: seq<Option<string>>)
    ensures calls == RestStopAt(pages, 0) + 1
    ensures r == RestDrainResult(pages)
    ensures |afters| == calls && afters[0] == None
    ensures forall k :: 0 < k < calls ==> afters[k] == Some(pages[k - 1].page_info.v.end_cursor.v)
  {
    var allPayments: seq<Payment> := [];
    var hasMorePayments := true;
    var paymentCursor: Option<string> := None;
    calls := 0;
    afters := [];
    while hasMorePayments
      invariant calls <= RestStopAt(pages, 0)
      invariant hasMorePayments
      invariant allPayments == RestCollected(pages, calls)
      invariant |afters| == calls
      invariant calls == 0 ==> paymentCursor == None
      invariant calls > 0 ==> paymentCursor == Some(pages[calls - 1].page_info.v.end_cursor.v)
      invariant forall k :: 0 < k < calls ==> afters[k] == Some(pages[k - 1].page_info.v.end_cursor.v)
      invariant calls > 0 ==> afters[0] == None
      decreases |pages| - calls
    {
      var after := if paymentCursor.Some? && paymentCursor.value != "" then paymentCursor else None;
      var response := RestCall(pages, calls);
      RestStopsHere(pages, calls);
      afters := afters + [after];
      calls := calls + 1;
      if response.RestThrew? {
        r := Failure;
        return;
      }
      var payments := DataOf(response);
      if |payments| == 0 {
        assert DataOf(RestCall(pages, calls - 1)) == [];
        assert RestCollected(pages, calls) == allPayments + [];
        hasMorePayments := false;
      } else {
        allPayments := allPayments + payments;
        if RestContinues(response) {
          paymentCursor := Some(response.page_info.v.end_cursor.v);
        } else {
          hasMorePayments := false;
        }
      }
      assert allPayments == RestCollected(pages, calls);
      if !hasMorePayments {
        assert calls - 1 == RestStopAt(pages, 0);
        break;
      }
    }
    r := Success(allPayments);
  }

  /** Up to the stopping call, a call is the stopping one exactly when it throws,
      returns no payments or gives no way to continue. */
  lemma RestStopsHere(pages: seq<RestReply>, k: nat)
    requires k <= RestStopAt(pages, 0)
    ensures k == RestStopAt(pages, 0) <==>
      (RestCall(pages, k).RestThrew? || |DataOf(RestCall(pages, k))| == 0 || !RestContinues(RestCall(pages, k)))
  {
  }

  /** An answered page without payments ends the drain and contributes nothing. */
  lemma EmptyPageEndsDrain(pages: seq<RestReply>, k: nat)
    requires k < |pages| && pages[k].RestAnswered? && |DataOf(pages[k])| == 0
    requires forall j :: 0 <= j < k ==> |DataOf(pages[j])| > 0 && RestContinues(pages[j])
    ensures RestDrainResult(pages) == Success(RestCollected(pages, k))
  {
    RestStopAtFirst(pages, 0, k);
    assert RestCall(pages, k) == pages[k];
    assert DataOf(RestCall(pages, k)) == [];
    assert RestCollected(pages, k + 1) == RestCollected(pages, k) + [];
    assert RestCollected(pages, k) + [] == RestCollected(pages, k);
    assert RestDrainResult(pages) == Success(RestCollected(pages, k + 1));
  }

  lemma {:induction false} RestStopAtFirst(pages: seq<RestReply>, i: nat, k: nat)
    requires i <= k < |pages| && pages[k].RestAnswered? && |DataOf(pages[k])| == 0
    requires forall j :: i <= j < k ==> |DataOf(pages[j])| > 0 && RestContinues(pages[j])
    ensures RestStopAt(pages, i) == k
    decreases k - i
  {
    if i < k {
      RestStopAtFirst(pages, i + 1, k);
    }
  }
}
