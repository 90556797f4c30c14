/** The cursor pagination loop of `fetch_all_cards` (and its two copies in the route handlers),
    run against an abstract page source in place of the GraphQL endpoint. */
module PagedFetcher {
  import opened Wrappers
  import opened Cards

  /** The `after` variable / `pageInfo.endCursor`: `None` is GraphQL `null`. */
  type Cursor = Option<string>

  /** `data.cards` of one response: its `edges` and its `pageInfo`. */
  datatype Page = Page(edges: seq<Card>, hasNextPage: bool, endCursor: Cursor)

  /** Why a page request raised: the transport failed or the body was not JSON,
      `raise_for_status` rejected the status, or the body lacked `data`, `data.cards`, `edges`,
      `pageInfo`, `hasNextPage` or `endCursor` (or `data` was `null`). */
  datatype FetchError = TransportError | HttpError(status: int) | MalformedEnvelope

  /** The endpoint as the loop sees it: one POST of the cards query for `pipeId` after a cursor. */
  type Api = (int, Cursor) -> Result<Page, FetchError>

  /** From `cursor` on, the chain of requests stops (a failure, or a page whose `hasNextPage` is
      false) within `n` requests. The source has no such bound: it loops for as long as the
      endpoint keeps answering `hasNextPage = true`. */
  ghost predicate EndsWithin(api: Api, pipeId: int, cursor: Cursor, n: nat)
    decreases n
  {
    n > 0 &&
    match api(pipeId, cursor)
    case Failure(_) => true
    case Success(page) => !page.hasNextPage || EndsWithin(api, pipeId, page.endCursor, n - 1)
  }

  /** `prefix` followed by the cards of `rest`, or the failure of `rest`. */
  function Prepend(prefix: seq<Card>, rest: Result<seq<Card>, FetchError>): Result<seq<Card>, FetchError>
  {
    match rest
    case Failure(e) => Failure(e)
    case Success(cards) => Success(prefix + cards)
  }

  lemma PrependAppend(a: seq<Card>, b: seq<Card>, rest: Result<seq<Card>, FetchError>)
    ensures Prepend([], rest) == rest
    ensures Prepend(a, Prepend(b, rest)) == Prepend(a + b, rest)
  {
    if rest.Success? {
      assert [] + rest.value == rest.value;
      assert a + (b + rest.value) == (a + b) + rest.value;
    }
  }

  /** What pagination from `cursor` on yields: every page's edges in request order, each request
      after the previous page's `endCursor`, up to the page without a next page; or the first
      failure, with no partial result. */
  ghost function Collect(api: Api, pipeId: int, cursor: Cursor, n: nat): Result<seq<Card>, FetchError>
    requires EndsWithin(api, pipeId, cursor, n)
    decreases n
  {
    match api(pipeId, cursor)
    case Failure(e) => Failure(e)
    case Success(page) =>
      if !page.hasNextPage then Success(page.edges)
      else Prepend(page.edges, Collect(api, pipeId, page.endCursor, n - 1))
  }

  /** The loop: `all_cards.extend(edges)`, then `has_next_page` and `after_cursor` taken from
      `pageInfo`, while `has_next_page`. A failed request aborts it. `trace` records each
      request the loop makes, with the response it got, at the moment it makes it. */
  method FetchPages(api: Api, pipeId: int, ghost bound: nat)
    returns (r: Result<seq<Card>, FetchError>, ghost trace: seq<Exchange>)
    requires EndsWithin(api, pipeId, None, bound)
    ensures r == Collect(api, pipeId, None, bound)
    ensures trace == Exchanges(api, pipeId, None, bound)
    ensures FollowsProtocol(api, pipeId, None, bound, trace, r)
  {
    var allCards: seq<Card> := [];
    var hasNextPage := true;
    var afterCursor: Cursor := None;
    ghost var fuel := bound;
    trace := [];
    PrependAppend([], [], Collect(api, pipeId, None, bound));
    while hasNextPage
      invariant hasNextPage ==> EndsWithin(api, pipeId, afterCursor, fuel)
      invariant hasNextPage ==> Collect(api, pipeId, None, bound) == Prepend(allCards, Collect(api, pipeId, afterCursor, fuel))
      invariant hasNextPage ==> Exchanges(api, pipeId, None, bound) == trace + Exchanges(api, pipeId, afterCursor, fuel)
      invariant !hasNextPage ==> Collect(api, pipeId, None, bound) == Success(allCards)
      invariant !hasNextPage ==> Exchanges(api, pipeId, None, bound) == trace
      decreases if hasNextPage then fuel + 1 else 0
    {
      var response := api(pipeId, afterCursor);
      ExchangesStep(api, pipeId, afterCursor, fuel, trace);
      trace := trace + [Exchange(afterCursor, response)];
      if response.Failure? {
        assert trace == Exchanges(api, pipeId, None, bound);
        ProtocolFrom(api, pipeId, None, bound);
        return Failure(response.error), trace;
      }
      var page := response.value;
      if page.hasNextPage {
        PrependAppend(allCards, page.edges, Collect(api, pipeId, page.endCursor, fuel - 1));
      }
      allCards := allCards + page.edges;
      hasNextPage := page.hasNextPage;
      afterCursor := page.endCursor;
      fuel := fuel - 1;
    }
    ProtocolFrom(api, pipeId, None, bound);
    return Success(allCards), trace;
  }

  /** A run of requests from `cursor` on, with its result, that keeps the pagination protocol:
      at least one and at most `n` requests; the first uses `cursor`; each is answered by the
      endpoint; every request but the last got a page with `hasNextPage` and the next one uses
      that page's `endCursor`; the last one failed or had no next page; the result is that
      failure or the concatenation of all the edges. */
  ghost predicate FollowsProtocol(api: Api, pipeId: int, cursor: Cursor, n: nat, trace: seq<Exchange>,
                                  r: Result<seq<Card>, FetchError>)
  {
    && 1 <= |trace| <= n
    && trace[0].cursor == cursor
    && (forall i :: 0 <= i < |trace| ==> trace[i].response == api(pipeId, trace[i].cursor))
    && (forall i :: 0 <= i < |trace| - 1 ==> Continues(trace[i]) && trace[i + 1].cursor == trace[i].response.value.endCursor)
    && !Continues(trace[|trace| - 1])
    && r == if trace[|trace| - 1].response.Failure? then Failure(trace[|trace| - 1].response.error) else Success(EdgesOf(trace))
  }

  /** One request of the run: the trace so far, followed by this exchange, followed by the rest
      of the run from the cursor the response names (if it asks for more). */
  lemma ExchangesStep(api: Api, pipeId: int, cursor: Cursor, n: nat, before: seq<Exchange>)
    requires EndsWithin(api, pipeId, cursor, n)
    ensures var x := Exchange(cursor, api(pipeId, cursor));
      && (Continues(x) ==> EndsWithin(api, pipeId, x.response.value.endCursor, n - 1))
      && before + Exchanges(api, pipeId, cursor, n)
         == (before + [x]) + (if Continues(x) then Exchanges(api, pipeId, x.response.value.endCursor, n - 1) else [])
  {
    var x := Exchange(cursor, api(pipeId, cursor));
    var rest := if Continues(x) then Exchanges(api, pipeId, x.response.value.endCursor, n - 1) else [];
    assert Exchanges(api, pipeId, cursor, n) == [x] + rest;
    assert before + ([x] + rest) == (before + [x]) + rest;
  }

  /** The result does not depend on which bound witnessed termination. */
  lemma {:induction false} CollectBoundIrrelevant(api: Api, pipeId: int, cursor: Cursor, n: nat, m: nat)
    requires EndsWithin(api, pipeId, cursor, n) && EndsWithin(api, pipeId, cursor, m)
    ensures Collect(api, pipeId, cursor, n) == Collect(api, pipeId, cursor, m)
    decreases n
  {
    match api(pipeId, cursor)
    case Failure(_) =>
    case Success(page) =>
      if page.hasNextPage {
        CollectBoundIrrelevant(api, pipeId, page.endCursor, n - 1, m - 1);
      }
  }

  /** One request of the run and what came back. */
  datatype Exchange = Exchange(cursor: Cursor, response: Result<Page, FetchError>)

  /** The loop asks for another page after this exchange. */
  predicate Continues(x: Exchange)
  {
    x.response.Success? && x.response.value.hasNextPage
  }

  /** The requests the loop makes from `cursor` on, in order. */
  ghost function Exchanges(api: Api, pipeId: int, cursor: Cursor, n: nat): seq<Exchange>
    requires EndsWithin(api, pipeId, cursor, n)
    decreases n
  {
    var x := Exchange(cursor, api(pipeId, cursor));
    [x] + (if Continues(x) then Exchanges(api, pipeId, x.response.value.endCursor, n - 1) else [])
  }

  /** The edges of the successful exchanges, concatenated in order. */
  function EdgesOf(trace: seq<Exchange>): seq<Card>
  {
    if trace == [] then []
    else (if trace[0].response.Success? then trace[0].response.value.edges else []) + EdgesOf(trace[1..])
  }

  /** From any cursor, the requests `Exchanges` lists keep the protocol, with `Collect` as the
      result (page size plays no part). */
  lemma {:induction false} ProtocolFrom(api: Api, pipeId: int, cursor: Cursor, n: nat)
    requires EndsWithin(api, pipeId, cursor, n)
    ensures FollowsProtocol(api, pipeId, cursor, n, Exchanges(api, pipeId, cursor, n), Collect(api, pipeId, cursor, n))
    decreases n
  {
    var tr := Exchanges(api, pipeId, cursor, n);
    var x := tr[0];
    if Continues(x) {
      var next := x.response.value.endCursor;
      ProtocolFrom(api, pipeId, next, n - 1);
      var rest := Exchanges(api, pipeId, next, n - 1);
      assert tr == [x] + rest;
      assert tr[1..] == rest;
      assert tr[|tr| - 1] == rest[|rest| - 1];
    } else {
      assert tr == [x];
      assert tr[1..] == [];
      if x.response.Success? {
        assert x.response.value.edges + [] == x.response.value.edges;
      }
    }
  }

}
