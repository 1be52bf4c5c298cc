/**
 * The `getAll` listing protocol shared by both request processors: the
 * `limit` default, the `continue` token each request carries, when the
 * sequence of requests stops, and how the pages' items and resource
 * versions combine.
 */
module Pagination {
  import opened Wrappers
  import opened JsValues
  import opened Interfaces
  import opened Requests

  const DEFAULT_LIMIT: int := 100

  /** The `{ resourceVersion, items }` object `getAll` resolves with. */
  datatype ListResult = ListResult(resourceVersion: Option<string>, items: seq<Json>)

  /** The error spreading `response.items` raises when a page is not a list. */
  const NOT_A_LIST := TypeError("response.items is not iterable")

  /**
   * `getAll`'s query before the first request: an empty record when none is
   * given, and `limit` set to 100 when it is absent or falsy.
   */
  function WithDefaultLimit(q: Option<Query>): (r: Query)
    ensures "limit" in r
    ensures q.Some? && "limit" in q.value && TruthyQueryValue(q.value["limit"]) ==> r["limit"] == q.value["limit"]
    ensures !(q.Some? && "limit" in q.value && TruthyQueryValue(q.value["limit"])) ==> r["limit"] == Num(DEFAULT_LIMIT)
    ensures q.Some? ==> r.Keys == q.value.Keys + {"limit"}
    ensures q.None? ==> r.Keys == {"limit"}
    ensures q.Some? ==> forall k :: k in q.value && k != "limit" ==> r[k] == q.value[k]
  {
    var base := if q.Some? then q.value else map[];
    if "limit" in base && TruthyQueryValue(base["limit"]) then base else base["limit" := Num(DEFAULT_LIMIT)]
  }

  /** `queryParameters.continue = continueValue`, where an absent token stays `undefined`. */
  function WithContinue(q: Query, token: Option<string>): (r: Query)
    ensures "continue" in r && r.Keys == q.Keys + {"continue"}
    ensures token.Some? ==> r["continue"] == Str(token.value)
    ensures token.None? ==> r["continue"] == Undefined
    ensures forall k :: k in q && k != "continue" ==> r[k] == q[k]
  {
    q["continue" := if token.Some? then Str(token.value) else Undefined]
  }

  /** A page's `{ items, metadata }`, or the TypeError reading them raises. */
  function PageList(page: Result<Body, Error>): (r: Result<Body, Error>)
    ensures r.Success? <==> page.Success? && page.value.List?
    ensures r.Success? ==> r == page
    ensures page.Failure? ==> r == page
    ensures page.Success? && !page.value.List? ==> r == Failure(NOT_A_LIST)
  {
    match page
    case Failure(e) => Failure(e)
    case Success(b) => if b.List? then Success(b) else Failure(NOT_A_LIST)
  }

  /** The loop goes on after this page: it is a list whose `continue` token is non-empty. */
  predicate Continues(page: Result<Body, Error>) {
    page.Success? && page.value.List? && Truthy(page.value.metadata.continueToken)
  }

  /** Some page ends the loop. */
  predicate Ends(pages: seq<Result<Body, Error>>) {
    exists i :: 0 <= i < |pages| && !Continues(pages[i])
  }

  lemma EndsAfterContinuing(pages: seq<Result<Body, Error>>)
    requires Ends(pages) && Continues(pages[0])
    ensures Ends(pages[1..])
  {
    var i :| 0 <= i < |pages| && !Continues(pages[i]);
    assert !Continues(pages[1..][i - 1]);
  }

  /**
   * The `do … while (continueValue && continueValue.length)` loop over the
   * pages the successive requests return, one page at a time from the front.
   */
  function Paginate(pages: seq<Result<Body, Error>>): (r: Result<ListResult, Error>)
    requires Ends(pages)
    ensures PageList(pages[0]).Failure? ==> r == Failure(PageList(pages[0]).error)
    ensures r.Success? ==> PageList(pages[0]).Success? && PageList(pages[0]).value.items <= r.value.items
    decreases |pages|
  {
    match PageList(pages[0])
    case Failure(e) => Failure(e)
    case Success(list) =>
      if !Truthy(list.metadata.continueToken) then Success(ListResult(list.metadata.resourceVersion, list.items))
      else
        EndsAfterContinuing(pages);
        match Paginate(pages[1..])
        case Failure(e) => Failure(e)
        case Success(rest) => Success(ListResult(rest.resourceVersion, list.items + rest.items))
  }

  /** A failed listing fails with the error of one of its pages. */
  lemma {:induction false} PaginateFailsOnSomePage(pages: seq<Result<Body, Error>>)
    requires Ends(pages)
    ensures Paginate(pages).Failure? ==> exists i :: 0 <= i < |pages| && PageList(pages[i]) == Failure(Paginate(pages).error)
    decreases |pages|
  {
    if Paginate(pages).Failure? && PageList(pages[0]).Success? {
      EndsAfterContinuing(pages);
      PaginateFailsOnSomePage(pages[1..]);
      var i :| 0 <= i < |pages[1..]| && PageList(pages[1..][i]) == Failure(Paginate(pages[1..]).error);
      assert PageList(pages[i + 1]) == Failure(Paginate(pages).error);
    }
  }

  /** The items fetched so far in front of what the remaining pages give. */
  function Prefixed(items: seq<Json>, r: Result<ListResult, Error>): Result<ListResult, Error> {
    match r
    case Failure(e) => Failure(e)
    case Success(l) => Success(ListResult(l.resourceVersion, items + l.items))
  }

  lemma PrefixedNothing(r: Result<ListResult, Error>)
    ensures Prefixed([], r) == r
  {
    if r.Success? {
      assert [] + r.value.items == r.value.items;
    }
  }

  /** One turn of the loop: a page that continues contributes its items in front of the rest. */
  lemma PaginateStep(pages: seq<Result<Body, Error>>, i: nat)
    requires Ends(pages) && i < |pages|
    requires forall j :: 0 <= j < i ==> Continues(pages[j])
    ensures Ends(pages[i..])
    ensures Continues(pages[i]) ==>
      && i + 1 < |pages| && Ends(pages[i + 1..])
      && Paginate(pages[i..]) == Prefixed(pages[i].value.items, Paginate(pages[i + 1..]))
  {
    var w :| 0 <= w < |pages| && !Continues(pages[w]);
    assert w >= i;
    assert !Continues(pages[i..][w - i]);
    if Continues(pages[i]) {
      assert pages[i..][1..] == pages[i + 1..];
      assert !Continues(pages[i + 1..][w - i - 1]);
    }
  }

  /** The loop's last turn: a page that does not continue decides the listing and the request count. */
  lemma PaginateExit(pages: seq<Result<Body, Error>>, i: nat, items: seq<Json>)
    requires Ends(pages) && i < |pages|
    requires forall j :: 0 <= j < i ==> Continues(pages[j])
    requires !Continues(pages[i])
    requires Paginate(pages) == Prefixed(items, Paginate(pages[i..]))
    ensures RequestCount(pages) == i + 1
    ensures PageList(pages[i]).Failure? ==> Paginate(pages) == Failure(PageList(pages[i]).error)
    ensures PageList(pages[i]).Success? ==>
      Paginate(pages) == Success(ListResult(pages[i].value.metadata.resourceVersion, items + pages[i].value.items))
  {
    PaginateStep(pages, i);
  }

  /** A turn that goes on: the page's items join the ones fetched before it. */
  lemma PaginateContinue(pages: seq<Result<Body, Error>>, i: nat, items: seq<Json>)
    requires Ends(pages) && i < |pages|
    requires forall j :: 0 <= j < i ==> Continues(pages[j])
    requires Continues(pages[i])
    requires Paginate(pages) == Prefixed(items, Paginate(pages[i..]))
    ensures i + 1 < |pages| && Ends(pages[i + 1..])
    ensures Paginate(pages) == Prefixed(items + pages[i].value.items, Paginate(pages[i + 1..]))
  {
    PaginateStep(pages, i);
    PrefixedTwice(items, pages[i].value.items, Paginate(pages[i + 1..]));
  }

  lemma PrefixedTwice(items: seq<Json>, more: seq<Json>, r: Result<ListResult, Error>)
    ensures Prefixed(items, Prefixed(more, r)) == Prefixed(items + more, r)
  {
    if r.Success? {
      assert items + (more + r.value.items) == items + more + r.value.items;
    }
  }

  /**
   * The page that ends a `getAll` loop: its error, the TypeError of
   * spreading a non-list, or the items fetched before it followed by its
   * own, with its resource version.
   */
  method ClosingPage(items: seq<Json>, page: Result<Body, Error>) returns (r: Result<ListResult, Error>)
    ensures PageList(page).Failure? ==> r == Failure(PageList(page).error)
    ensures PageList(page).Success? ==> r == Success(ListResult(page.value.metadata.resourceVersion, items + page.value.items))
  {
    if page.Failure? {
      r := Failure(page.error);
    } else if !page.value.List? {
      r := Failure(NOT_A_LIST);
    } else {
      r := Success(ListResult(page.value.metadata.resourceVersion, items + page.value.items));
    }
  }


  /** The transport reply would let the loop go on: a 2xx list response with a non-empty `continue` token. */
  predicate ReplyContinues(reply: Reply) {
    reply.Response? && IsSuccessStatus(reply.statusCode) && Continues(Success(reply.body))
  }

  /** Some reply ends the listing. */
  predicate RepliesEnd(replies: seq<Reply>) {
    exists i :: 0 <= i < |replies| && !ReplyContinues(replies[i])
  }

  /** The number of requests the loop makes: up to and including the first page that ends it. */
  function RequestCount(pages: seq<Result<Body, Error>>): (n: nat)
    requires Ends(pages)
    ensures 1 <= n <= |pages|
    ensures !Continues(pages[n - 1])
    ensures forall j :: 0 <= j < n - 1 ==> Continues(pages[j])
    decreases |pages|
  {
    if !Continues(pages[0]) then 1
    else
      EndsAfterContinuing(pages);
      1 + RequestCount(pages[1..])
  }

  /** The `continue` token sent with request `k`: none with the first, then the previous page's. */
  function ContinueSent(pages: seq<Result<Body, Error>>, k: nat): (token: Option<string>)
    requires k < |pages|
    requires forall j :: 0 <= j < k ==> Continues(pages[j])
    ensures k == 0 ==> token.None?
    ensures k > 0 ==> Truthy(token)
  {
    if k == 0 then None
    else
      assert Continues(pages[k - 1]);
      pages[k - 1].value.metadata.continueToken
  }

  /** The query records of the first `n` requests: the starting query with each request's `continue` token. */
  function QueriesSent(q: Query, pages: seq<Result<Body, Error>>, n: nat): (qs: seq<Query>)
    requires n <= |pages|
    requires forall j :: 0 <= j < n - 1 ==> Continues(pages[j])
    ensures |qs| == n
    ensures forall k :: 0 <= k < n ==> qs[k] == WithContinue(q, ContinueSent(pages, k))
  {
    if n == 0 then [] else QueriesSent(q, pages, n - 1) + [WithContinue(q, ContinueSent(pages, n - 1))]
  }

  /** Setting `continue` again replaces the token set before. */
  lemma ContinueReplaced(q: Query, first: Option<string>, second: Option<string>)
    ensures WithContinue(WithContinue(q, first), second) == WithContinue(q, second)
  {
  }

  /** The items of a run of list pages, in page order. */
  function AllItems(pages: seq<Result<Body, Error>>): seq<Json>
    requires forall j :: 0 <= j < |pages| ==> pages[j].Success? && pages[j].value.List?
  {
    if pages == [] then [] else pages[0].value.items + AllItems(pages[1..])
  }

  /**
   * The listing as the source describes it, independently of the loop:
   * the first page that does not continue decides; if it is a list, the
   * result has every page's items in fetch order and that last page's
   * resource version, otherwise the listing fails as reading that page fails.
   */
  ghost function Listing(pages: seq<Result<Body, Error>>): Result<ListResult, Error>
    requires Ends(pages)
  {
    var n := RequestCount(pages);
    match PageList(pages[n - 1])
    case Failure(e) => Failure(e)
    case Success(last) => Success(ListResult(last.metadata.resourceVersion, AllItems(pages[..n])))
  }

  /** The loop computes the listing: items concatenated in fetch order, the last page's resource version. */
  lemma {:induction false} PaginateIsListing(pages: seq<Result<Body, Error>>)
    requires Ends(pages)
    ensures Paginate(pages) == Listing(pages)
    decreases |pages|
  {
    if !Continues(pages[0]) {
      assert RequestCount(pages) == 1;
      if PageList(pages[0]).Success? {
        assert pages[..1][0] == pages[0] && pages[..1][1..] == [];
        assert AllItems(pages[..1]) == pages[0].value.items;
      }
    } else {
      EndsAfterContinuing(pages);
      PaginateIsListing(pages[1..]);
      var n := RequestCount(pages);
      assert n == 1 + RequestCount(pages[1..]);
      assert pages[1..][n - 2] == pages[n - 1];
      if PageList(pages[n - 1]).Success? {
        assert pages[..n][1..] == pages[1..][..n - 1];
      }
    }
  }

  /** Pages after the first one that ends the loop are never looked at. */
  lemma {:induction false} PaginateIgnoresLaterPages(pages: seq<Result<Body, Error>>, more: seq<Result<Body, Error>>)
    requires Ends(pages)
    ensures Ends(pages[..RequestCount(pages)] + more)
    ensures Paginate(pages[..RequestCount(pages)] + more) == Paginate(pages)
    decreases |pages|
  {
    var n := RequestCount(pages);
    var cut := pages[..n] + more;
    assert cut[n - 1] == pages[n - 1];
    assert cut[0] == pages[0];
    if Continues(pages[0]) {
      EndsAfterContinuing(pages);
      PaginateIgnoresLaterPages(pages[1..], more);
      assert cut[1..] == pages[1..][..RequestCount(pages[1..])] + more;
    }
  }

  /** A single page without a `continue` token is the whole listing. */
  lemma SinglePageListing(items: seq<Json>, rv: Option<string>, later: seq<Result<Body, Error>>)
    ensures var pages := [Success(List(items, ListMeta(rv, None)))] + later;
      Ends(pages) && Paginate(pages) == Success(ListResult(rv, items)) && RequestCount(pages) == 1
  {
    var pages := [Success(List(items, ListMeta(rv, None)))] + later;
    assert !Continues(pages[0]);
  }

  /** Two pages joined by a token: items in fetch order, the second page's resource version. */
  lemma TwoPageListing(first: seq<Json>, second: seq<Json>, token: string, rv1: Option<string>, rv2: Option<string>)
    requires token != ""
    ensures var pages := [Success(List(first, ListMeta(rv1, Some(token)))), Success(List(second, ListMeta(rv2, Some(""))))];
      && Ends(pages) && RequestCount(pages) == 2
      && Paginate(pages) == Success(ListResult(rv2, first + second))
      && ContinueSent(pages, 1) == Some(token)
  {
    var pages := [Success(List(first, ListMeta(rv1, Some(token)))), Success(List(second, ListMeta(rv2, Some(""))))];
    assert !Continues(pages[1]);
    assert pages[1..] == [pages[1]];
  }
}
