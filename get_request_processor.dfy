/**
 * GetRequestProcessor, the older read-only processor: a GET that builds its
 * own options and rejects non-2xx replies with a plain Error, and the same
 * `getAll` listing loop.
 */
module GetRequests {
  import opened Wrappers
  import opened JsValues
  import opened Interfaces
  import opened KubeConfigs
  import opened Requests
  import opened BaseRequest
  import opened Pagination
  import ApiRequests

  /** `${body}`: a body left as text prints as itself, a decoded object as `[object Object]`. */
  function ShowBody(b: Body): (s: string)
    ensures b.Text? ==> s == b.text
    ensures !b.Text? ==> s == "[object Object]"
  {
    if b.Text? then b.text else "[object Object]"
  }

  /** The message of the Error a non-2xx reply rejects with. */
  function FailureMessage(code: int, statusMessage: string, body: Body): string {
    "Response failed. " + IntToString(code) + ": " + statusMessage + ". Body: " + ShowBody(body)
  }

  /**
   * `get`'s reply handling: a transport error rejects as it is; a 2xx
   * status resolves with the body; any other status rejects with a plain
   * Error whose message shows the status, its text and the body.
   */
  function ClassifyReply(reply: Reply): (r: Result<Body, Error>)
    ensures r.Success? <==> reply.Response? && IsSuccessStatus(reply.statusCode)
    ensures r.Success? ==> r.value == reply.body
    ensures reply.TransportFailure? ==> r == Failure(reply.error)
    ensures reply.Response? && !IsSuccessStatus(reply.statusCode) ==>
      r == Failure(PlainError(FailureMessage(reply.statusCode, reply.statusMessage, reply.body)))
  {
    match reply
    case TransportFailure(e) => Failure(e)
    case Response(code, message, body) =>
      if IsSuccessStatus(code) then Success(body)
      else Failure(PlainError(FailureMessage(code, message, body)))
  }

  /** The options `get` builds: JSON mode, GET, `server + path`, an empty header record, the caller's query. */
  function GetOptions(url: string, qs: Option<Query>): OptionsValue {
    NewOptions(url, "GET", qs, Some(map[]), None, Some(true))
  }

  /** `get` given the configuration `loadConfig` yields. */
  function GetOutcome(cfg: Result<Loaded, Error>, path: string, qs: Option<Query>, host: Host, reply: Reply): (r: Outcome)
    ensures cfg.Failure? ==> r == Outcome(Failure(cfg.error), None)
    ensures cfg.Success? && cfg.value.cluster.None? ==> r == Outcome(Failure(UNDEFINED_CLUSTER), None)
    ensures r.sent.None? ==> r.result.Failure?
    ensures r.sent.Some? ==> r.sent.value.httpMethod == "GET" && r.sent.value.json == Some(true)
  {
    match cfg
    case Failure(e) => Outcome(Failure(e), None)
    case Success(l) =>
      match ServerUrl(l, path)
      case Failure(e) => Outcome(Failure(e), None)
      case Success(url) =>
        var u := Update(Success(l), GetOptions(url, qs), host);
        if u.error.Some? then Outcome(Failure(u.error.value), None)
        else Outcome(ClassifyReply(reply), Some(u.options))
  }

  /**
   * What `get` sends: JSON mode, GET, `server + path`, the caller's query
   * unchanged and a header record; it resolves exactly when it was sent and
   * the reply is 2xx, with the reply's body.
   */
  lemma SentGetRequest(cfg: Result<Loaded, Error>, path: string, qs: Option<Query>, host: Host, reply: Reply)
    ensures var r := GetOutcome(cfg, path, qs, host, reply);
      && (r.sent.Some? ==>
            && cfg.Success? && cfg.value.cluster.Some?
            && r.sent.value.url == cfg.value.cluster.value.spec.server + path
            && r.sent.value.httpMethod == "GET"
            && r.sent.value.qs == qs
            && r.sent.value.json == Some(true)
            && r.sent.value.headers.Some?)
      && (r.result.Success? <==> r.sent.Some? && reply.Response? && IsSuccessStatus(reply.statusCode))
      && (r.result.Success? ==> r.result.value == reply.body)
  {
    if cfg.Success? && cfg.value.cluster.Some? {
      var l := cfg.value;
      DeriveFollowsPrecedence(GetOptions(l.cluster.value.spec.server + path, qs), l.user, l.cluster, host);
    }
  }

  /**
   * The two revisions of `get` agree on everything but the error a non-2xx
   * reply rejects with: they resolve on the same replies with the same
   * body, fail alike before sending, and send the same request apart from
   * the header record the older one always creates.
   */
  lemma RevisionsAgree(cfg: Result<Loaded, Error>, path: string, qs: Option<Query>, host: Host, reply: Reply)
    ensures var older := GetOutcome(cfg, path, qs, host, reply);
      var newer := ApiRequests.CallOutcome(cfg, ApiRequests.GetCall, path, qs, host, reply);
      && (older.result.Success? <==> newer.result.Success?)
      && (older.result.Success? ==> older.result == newer.result)
      && (older.sent.None? <==> newer.sent.None?)
      && (older.sent.None? ==> older.result == newer.result)
      && (older.sent.Some? ==> older.sent.value.(headers := None) == newer.sent.value.(headers := None))
  {
    if cfg.Success? && cfg.value.cluster.Some? {
      var l := cfg.value;
      var url := l.cluster.value.spec.server + path;
      var o1 := GetOptions(url, qs);
      var o2 := ApiRequests.CallOptions(ApiRequests.GetCall, url, qs).(json := Some(true));
      DeriveErrorIgnoresOptions(o1, o2, l.user, l.cluster, host);
      DeriveFollowsPrecedence(o1, l.user, l.cluster, host);
      DeriveFollowsPrecedence(o2, l.user, l.cluster, host);
    }
  }

  /** A list request's outcome: a GET of `path` (its query does not change the outcome). */
  function ListPage(cfg: Result<Loaded, Error>, path: string, host: Host, reply: Reply): Result<Body, Error> {
    GetOutcome(cfg, path, None, host, reply).result
  }

  /** The page each reply makes of a list request, in order. */
  function ListPages(cfg: Result<Loaded, Error>, path: string, host: Host, replies: seq<Reply>): (pages: seq<Result<Body, Error>>)
    ensures |pages| == |replies|
  {
    if replies == [] then [] else [ListPage(cfg, path, host, replies[0])] + ListPages(cfg, path, host, replies[1..])
  }

  lemma {:induction false} ListPagesAt(cfg: Result<Loaded, Error>, path: string, host: Host, replies: seq<Reply>, i: nat)
    requires i < |replies|
    ensures ListPages(cfg, path, host, replies)[i] == ListPage(cfg, path, host, replies[i])
    decreases i
  {
    if i > 0 {
      ListPagesAt(cfg, path, host, replies[1..], i - 1);
    }
  }

  /** The query of a GET changes what is sent, never how the request ends. */
  lemma GetOutcomeIgnoresQuery(cfg: Result<Loaded, Error>, path: string, qs: Option<Query>, host: Host, reply: Reply)
    ensures GetOutcome(cfg, path, qs, host, reply).result == ListPage(cfg, path, host, reply)
  {
    if cfg.Success? && cfg.value.cluster.Some? {
      var l := cfg.value;
      var url := l.cluster.value.spec.server + path;
      DeriveErrorIgnoresOptions(GetOptions(url, qs), GetOptions(url, None), l.user, l.cluster, host);
    }
  }

  /** A page can continue the listing only if its reply did. */
  lemma ListPagesEnd(cfg: Result<Loaded, Error>, path: string, host: Host, replies: seq<Reply>)
    requires RepliesEnd(replies)
    ensures Ends(ListPages(cfg, path, host, replies))
  {
    var pages := ListPages(cfg, path, host, replies);
    var i :| 0 <= i < |replies| && !ReplyContinues(replies[i]);
    SentGetRequest(cfg, path, None, host, replies[i]);
    ListPagesAt(cfg, path, host, replies, i);
    assert !Continues(pages[i]);
  }

  class GetRequestProcessor {
    /** The configuration cache every processor inherits. */
    const base: BaseRequestProcessor

    constructor()
      ensures fresh(base) && base.kubeConfig == null
    {
      base := new BaseRequestProcessor();
    }

    /** `get`: load the configuration, build the options, derive credentials in place, send, classify. */
    method Get(path: string, qs: Option<Query>, host: Host, reply: Reply) returns (r: Result<Body, Error>, sent: Option<OptionsValue>)
      modifies base
      ensures old(base.kubeConfig) != null ==> base.kubeConfig == old(base.kubeConfig)
      ensures base.Cached() == CachedAfter(old(base.Cached()), host)
      ensures Outcome(r, sent) == GetOutcome(Configuration(old(base.Cached()), host), path, qs, host, reply)
    {
      var kc := base.LoadConfig(host);
      if kc.Failure? {
        return Failure(kc.error), None;
      }
      if kc.value.cluster.None? {
        return Failure(UNDEFINED_CLUSTER), None;
      }
      var options := new RequestOptions(GetOptions(kc.value.cluster.value.spec.server + path, qs));
      var err := base.UpdateRequestOptions(options, host);
      if err.Some? {
        return Failure(err.value), None;
      }
      sent := Some(options.Value());
      match reply
      case TransportFailure(e) =>
        r := Failure(e);
      case Response(code, message, body) =>
        if 200 <= code && code <= 299 {
          r := Success(body);
        } else {
          r := Failure(PlainError("Response failed. " + IntToString(code) + ": " + message + ". Body: " + ShowBody(body)));
        }
    }

    /** One `this.get(path, queryParameters)` of the listing loop, seen as the page it yields. */
    method ListRequest(path: string, q: Query, host: Host, replies: seq<Reply>, i: nat, ghost cfg: Result<Loaded, Error>)
      returns (page: Result<Body, Error>)
      requires i < |replies|
      requires Configuration(base.Cached(), host) == cfg
      modifies base
      ensures old(base.kubeConfig) != null ==> base.kubeConfig == old(base.kubeConfig)
      ensures base.Cached() == CachedAfter(old(base.Cached()), host)
      ensures page == ListPages(cfg, path, host, replies)[i]
    {
      var sent;
      page, sent := Get(path, Some(q), host, replies[i]);
      GetOutcomeIgnoresQuery(cfg, path, Some(q), host, replies[i]);
      ListPagesAt(cfg, path, host, replies, i);
    }

    /**
     * `getAll`: GET requests, one per reply, each carrying the previous
     * page's `continue` token, until a page without one; the result is the
     * listing of those pages. `queries` are the query records the requests
     * were made with, in order.
     */
    method GetAll(path: string, queryParameters: Option<Query>, host: Host, replies: seq<Reply>)
      returns (r: Result<ListResult, Error>, queries: seq<Query>)
      requires RepliesEnd(replies)
      modifies base
      ensures old(base.kubeConfig) != null ==> base.kubeConfig == old(base.kubeConfig)
      ensures base.Cached() == CachedAfter(old(base.Cached()), host)
      ensures var pages := ListPages(Configuration(old(base.Cached()), host), path, host, replies);
        && Ends(pages)
        && r == Paginate(pages)
        && queries == QueriesSent(WithDefaultLimit(queryParameters), pages, RequestCount(pages))
    {
      ghost var cfg := Configuration(old(base.Cached()), host);
      ghost var pages := ListPages(cfg, path, host, replies);
      ListPagesEnd(cfg, path, host, replies);
      var q := WithDefaultLimit(queryParameters);
      var items: seq<Json> := [];
      var continueValue: Option<string> := None;
      var i := 0;
      queries := [];
      assert pages[0..] == pages;
      PrefixedNothing(Paginate(pages));
      while true
        invariant 0 <= i < |pages|
        invariant forall j :: 0 <= j < i ==> Continues(pages[j])
        invariant Ends(pages[i..])
        invariant Paginate(pages) == Prefixed(items, Paginate(pages[i..]))
        invariant continueValue == ContinueSent(pages, i)
        invariant queries == QueriesSent(WithDefaultLimit(queryParameters), pages, i)
        invariant i == 0 ==> q == WithDefaultLimit(queryParameters)
        invariant i > 0 ==> q == WithContinue(WithDefaultLimit(queryParameters), ContinueSent(pages, i - 1))
        invariant old(base.kubeConfig) != null ==> base.kubeConfig == old(base.kubeConfig)
        invariant Configuration(base.Cached(), host) == cfg
        invariant base.Cached() == old(base.Cached()) || base.Cached() == CachedAfter(old(base.Cached()), host)
        decreases |pages| - i
      {
        if i > 0 {
          ContinueReplaced(WithDefaultLimit(queryParameters), ContinueSent(pages, i - 1), continueValue);
        }
        q := WithContinue(q, continueValue);
        queries := queries + [q];
        var response := ListRequest(path, q, host, replies, i, cfg);
        if !Continues(response) {
          PaginateExit(pages, i, items);
          r := ClosingPage(items, response);
          break;
        }
        PaginateContinue(pages, i, items);
        items := items + response.value.items;
        continueValue := response.value.metadata.continueToken;
        i := i + 1;
      }
    }
  }
}
