/**
 * APIRequestProcessor: one method per HTTP verb, the shared `makeRequest`
 * that sends the request and classifies the reply by status code, and
 * `getAll`, which follows `continue` tokens across list pages.
 */
module ApiRequests {
  import opened Wrappers
  import opened JsValues
  import opened Interfaces
  import opened KubeConfigs
  import opened Requests
  import opened BaseRequest
  import opened Pagination

  /** RFC 6902 JSON Patch. */
  const JSON_PATCH_CONTENT_TYPE: string := "application/json-patch+json"
  /** RFC 7386 JSON Merge Patch. */
  const MERGE_PATCH_CONTENT_TYPE: string := "application/merge-patch+json"

  /** One call of the processor's public verbs, with the body it carries. */
  datatype Call =
    | GetCall
    | PostCall(body: Json)
    | PutCall(body: Json)
    | PatchCall(ops: seq<PatchBodyItem>)
    | MergeCall(body: Json)
    | DeleteCall

  function MethodOf(c: Call): (m: string)
    ensures m == "PATCH" <==> c.PatchCall? || c.MergeCall?
  {
    match c
    case GetCall => "GET"
    case PostCall(_) => "POST"
    case PutCall(_) => "PUT"
    case PatchCall(_) => "PATCH"
    case MergeCall(_) => "PATCH"
    case DeleteCall => "DELETE"
  }

  /** The options record each verb builds before `makeRequest`. */
  function CallOptions(c: Call, url: string, qs: Option<Query>): (r: OptionsValue)
    ensures r.url == url && r.httpMethod == MethodOf(c) && r.qs == qs
    ensures r == NewOptions(url, MethodOf(c), qs, r.headers, r.body, None)
    ensures r.headers.Some? <==> c.PatchCall? || c.MergeCall?
    ensures c.PatchCall? ==> r.headers == Some(map["content-type" := JSON_PATCH_CONTENT_TYPE]) && r.body == Some(PatchBody(c.ops))
    ensures c.MergeCall? ==> r.headers == Some(map["content-type" := MERGE_PATCH_CONTENT_TYPE]) && r.body == Some(JsonBody(c.body))
    ensures c.PostCall? || c.PutCall? ==> r.body == Some(JsonBody(c.body))
    ensures c.GetCall? || c.DeleteCall? ==> r.body.None?
  {
    match c
    case GetCall => NewOptions(url, "GET", qs, None, None, None)
    case PostCall(b) => NewOptions(url, "POST", qs, None, Some(JsonBody(b)), None)
    case PutCall(b) => NewOptions(url, "PUT", qs, None, Some(JsonBody(b)), None)
    case PatchCall(ops) => NewOptions(url, "PATCH", qs, Some(map["content-type" := JSON_PATCH_CONTENT_TYPE]), Some(PatchBody(ops)), None)
    case MergeCall(b) => NewOptions(url, "PATCH", qs, Some(map["content-type" := MERGE_PATCH_CONTENT_TYPE]), Some(JsonBody(b)), None)
    case DeleteCall => NewOptions(url, "DELETE", qs, None, None, None)
  }

  /** The message of the RequestError a non-2xx reply (a 404, say) rejects with: method, URL, status code and status text. */
  function FailureMessage(httpMethod: string, url: string, code: int, statusMessage: string): string {
    httpMethod + " " + url + " request failed. " + IntToString(code) + ": " + statusMessage
  }

  /**
   * `makeRequest`'s reply handling: a transport error rejects as it is; a
   * 2xx status resolves with the body; any other status rejects with a
   * RequestError carrying the status and the body.
   */
  function ClassifyReply(httpMethod: string, url: string, reply: Reply): (r: Result<Body, Error>)
    ensures r.Success? <==> reply.Response? && IsSuccessStatus(reply.statusCode)
    ensures r.Success? ==> r.value == reply.body
    ensures reply.TransportFailure? ==> r == Failure(reply.error)
    ensures reply.Response? && !IsSuccessStatus(reply.statusCode) ==>
      r == Failure(RequestError(FailureMessage(httpMethod, url, reply.statusCode, reply.statusMessage),
                                Some(reply.statusCode), Some(reply.body)))
  {
    match reply
    case TransportFailure(e) => Failure(e)
    case Response(code, message, body) =>
      if IsSuccessStatus(code) then Success(body)
      else Failure(RequestError(FailureMessage(httpMethod, url, code, message), Some(code), Some(body)))
  }

  /** `makeRequest(options)` given the configuration `loadConfig` yields. */
  function MakeRequestOutcome(cfg: Result<Loaded, Error>, o: OptionsValue, host: Host, reply: Reply): (r: Outcome)
    ensures r.sent.Some? ==> r.sent.value == Update(cfg, o.(json := Some(true)), host).options
    ensures r.sent.None? <==> Update(cfg, o.(json := Some(true)), host).error.Some?
    ensures r.sent.None? ==> r.result == Failure(Update(cfg, o.(json := Some(true)), host).error.value)
    ensures r.sent.Some? ==> r.result == ClassifyReply(o.httpMethod, o.url, reply)
  {
    var u := Update(cfg, o.(json := Some(true)), host);
    if u.error.Some? then Outcome(Failure(u.error.value), None)
    else Outcome(ClassifyReply(u.options.httpMethod, u.options.url, reply), Some(u.options))
  }

  /** One verb: load the configuration, build the options for `server + path`, then `makeRequest`. */
  function CallOutcome(cfg: Result<Loaded, Error>, c: Call, path: string, qs: Option<Query>, host: Host, reply: Reply): (r: Outcome)
    ensures cfg.Failure? ==> r == Outcome(Failure(cfg.error), None)
    ensures cfg.Success? && cfg.value.cluster.None? ==> r == Outcome(Failure(UNDEFINED_CLUSTER), None)
    ensures r.sent.None? ==> r.result.Failure?
    ensures r.sent.Some? ==> r.sent.value.httpMethod == MethodOf(c) && r.sent.value.json == Some(true)
  {
    match cfg
    case Failure(e) => Outcome(Failure(e), None)
    case Success(l) =>
      match ServerUrl(l, path)
      case Failure(e) => Outcome(Failure(e), None)
      case Success(url) => MakeRequestOutcome(Success(l), CallOptions(c, url, qs), host, reply)
  }

  /**
   * What a verb sends: `server + path`, the verb's method, the caller's
   * query unchanged, its body, JSON mode, and for the two PATCH verbs their
   * content type (beside any Authorization header); it resolves exactly
   * when it was sent and the reply is 2xx, with the reply's body.
   */
  lemma SentRequestFollowsCall(cfg: Result<Loaded, Error>, c: Call, path: string, qs: Option<Query>, host: Host, reply: Reply)
    ensures var r := CallOutcome(cfg, c, path, qs, host, reply);
      && (r.sent.Some? ==>
            && cfg.Success? && cfg.value.cluster.Some?
            && r.sent.value.url == cfg.value.cluster.value.spec.server + path
            && r.sent.value.httpMethod == MethodOf(c)
            && r.sent.value.qs == qs
            && r.sent.value.body == CallOptions(c, "", qs).body
            && r.sent.value.json == Some(true)
            && (c.PatchCall? ==> r.sent.value.headers.Some? && r.sent.value.headers.value["content-type"] == JSON_PATCH_CONTENT_TYPE)
            && (c.MergeCall? ==> r.sent.value.headers.Some? && r.sent.value.headers.value["content-type"] == MERGE_PATCH_CONTENT_TYPE))
      && (r.result.Success? <==> r.sent.Some? && reply.Response? && IsSuccessStatus(reply.statusCode))
      && (r.result.Success? ==> r.result.value == reply.body)
  {
    if cfg.Success? && cfg.value.cluster.Some? {
      var l := cfg.value;
      var o := CallOptions(c, l.cluster.value.spec.server + path, qs).(json := Some(true));
      DeriveKeepsRequest(o, l.user, l.cluster, host);
    }
  }

  /** A list request's outcome: a GET of `path` (its query does not change the outcome). */
  function ListPage(cfg: Result<Loaded, Error>, path: string, host: Host, reply: Reply): Result<Body, Error> {
    CallOutcome(cfg, GetCall, path, None, host, reply).result
  }

  /** The page each reply makes of a list request, in order. */
  function ListPages(cfg: Result<Loaded, Error>, path: string, host: Host, replies: seq<Reply>): (pages: seq<Result<Body, Error>>)
    ensures |pages| == |replies|
  {
    if replies == [] then [] else [ListPage(cfg, path, host, replies[0])] + ListPages(cfg, path, host, replies[1..])
  }

  lemma {:induction false} ListPagesAt(cfg: Result<Loaded, Error>, path: string, host: Host, replies: seq<Reply>, i: nat)
    requires i < |replies|
    ensures ListPages(cfg, path, host, replies)[i] == ListPage(cfg, path, host, replies[i])
    decreases i
  {
    if i > 0 {
      ListPagesAt(cfg, path, host, replies[1..], i - 1);
    }
  }

  /** The query of a GET changes what is sent, never how the request ends. */
  lemma GetOutcomeIgnoresQuery(cfg: Result<Loaded, Error>, path: string, qs: Option<Query>, host: Host, reply: Reply)
    ensures CallOutcome(cfg, GetCall, path, qs, host, reply).result == ListPage(cfg, path, host, reply)
  {
    if cfg.Success? && cfg.value.cluster.Some? {
      var l := cfg.value;
      var url := l.cluster.value.spec.server + path;
      DeriveErrorIgnoresOptions(CallOptions(GetCall, url, qs).(json := Some(true)), CallOptions(GetCall, url, None).(json := Some(true)),
                                l.user, l.cluster, host);
    }
  }

  /** A page can continue the listing only if its reply did. */
  lemma ListPagesEnd(cfg: Result<Loaded, Error>, path: string, host: Host, replies: seq<Reply>)
    requires RepliesEnd(replies)
    ensures Ends(ListPages(cfg, path, host, replies))
  {
    var pages := ListPages(cfg, path, host, replies);
    var i :| 0 <= i < |replies| && !ReplyContinues(replies[i]);
    SentRequestFollowsCall(cfg, GetCall, path, None, host, replies[i]);
    ListPagesAt(cfg, path, host, replies, i);
    assert !Continues(pages[i]);
  }

  class APIRequestProcessor {
    /** The configuration cache every processor inherits. */
    const base: BaseRequestProcessor

    constructor()
      ensures fresh(base) && base.kubeConfig == null
    {
      base := new BaseRequestProcessor();
    }

    /** `makeRequest`: sets JSON mode, derives the TLS and credential options in place, sends, classifies. */
    method MakeRequest(options: RequestOptions, host: Host, reply: Reply) returns (r: Result<Body, Error>, sent: Option<OptionsValue>)
      modifies base, options
      ensures old(base.kubeConfig) != null ==> base.kubeConfig == old(base.kubeConfig)
      ensures base.Cached() == CachedAfter(old(base.Cached()), host)
      ensures var cfg := Configuration(old(base.Cached()), host);
        && options.Value() == Update(cfg, old(options.Value()).(json := Some(true)), host).options
        && Outcome(r, sent) == MakeRequestOutcome(cfg, old(options.Value()), host, reply)
    {
      options.json := Some(true);
      var err := base.UpdateRequestOptions(options, host);
      if err.Some? {
        return Failure(err.value), None;
      }
      sent := Some(options.Value());
      match reply
      case TransportFailure(e) =>
        r := Failure(e);
      case Response(code, message, body) =>
        if 200 <= code && code <= 299 {
          r := Success(body);
        } else {
          r := Failure(RequestError(options.httpMethod + " " + options.url + " request failed. " + IntToString(code) + ": " + message,
                                    Some(code), Some(body)));
        }
    }

    /** The body every verb shares: load the configuration, build the verb's options, `makeRequest`. */
    method Send(c: Call, path: string, qs: Option<Query>, host: Host, reply: Reply) returns (r: Result<Body, Error>, sent: Option<OptionsValue>)
      modifies base
      ensures old(base.kubeConfig) != null ==> base.kubeConfig == old(base.kubeConfig)
      ensures base.Cached() == CachedAfter(old(base.Cached()), host)
      ensures Outcome(r, sent) == CallOutcome(Configuration(old(base.Cached()), host), c, path, qs, host, reply)
    {
      var kc := base.LoadConfig(host);
      if kc.Failure? {
        return Failure(kc.error), None;
      }
      if kc.value.cluster.None? {
        return Failure(UNDEFINED_CLUSTER), None;
      }
      var options := new RequestOptions(CallOptions(c, kc.value.cluster.value.spec.server + path, qs));
      r, sent := MakeRequest(options, host, reply);
    }

    method Get(path: string, qs: Option<Query>, host: Host, reply: Reply) returns (r: Result<Body, Error>, sent: Option<OptionsValue>)
      modifies base
      ensures old(base.kubeConfig) != null ==> base.kubeConfig == old(base.kubeConfig)
      ensures base.Cached() == CachedAfter(old(base.Cached()), host)
      ensures Outcome(r, sent) == CallOutcome(Configuration(old(base.Cached()), host), GetCall, path, qs, host, reply)
    {
      r, sent := Send(GetCall, path, qs, host, reply);
    }

    method Post(path: string, body: Json, qs: Option<Query>, host: Host, reply: Reply) returns (r: Result<Body, Error>, sent: Option<OptionsValue>)
      modifies base
      ensures old(base.kubeConfig) != null ==> base.kubeConfig == old(base.kubeConfig)
      ensures base.Cached() == CachedAfter(old(base.Cached()), host)
      ensures Outcome(r, sent) == CallOutcome(Configuration(old(base.Cached()), host), PostCall(body), path, qs, host, reply)
    {
      r, sent := Send(PostCall(body), path, qs, host, reply);
    }

    method Put(path: string, body: Json, qs: Option<Query>, host: Host, reply: Reply) returns (r: Result<Body, Error>, sent: Option<OptionsValue>)
      modifies base
      ensures old(base.kubeConfig) != null ==> base.kubeConfig == old(base.kubeConfig)
      ensures base.Cached() == CachedAfter(old(base.Cached()), host)
      ensures Outcome(r, sent) == CallOutcome(Configuration(old(base.Cached()), host), PutCall(body), path, qs, host, reply)
    {
      r, sent := Send(PutCall(body), path, qs, host, reply);
    }

    /** JSON Patch (RFC 6902). */
    method Patch(path: string, ops: seq<PatchBodyItem>, qs: Option<Query>, host: Host, reply: Reply) returns (r: Result<Body, Error>, sent: Option<OptionsValue>)
      modifies base
      ensures old(base.kubeConfig) != null ==> base.kubeConfig == old(base.kubeConfig)
      ensures base.Cached() == CachedAfter(old(base.Cached()), host)
      ensures Outcome(r, sent) == CallOutcome(Configuration(old(base.Cached()), host), PatchCall(ops), path, qs, host, reply)
    {
      r, sent := Send(PatchCall(ops), path, qs, host, reply);
    }

    /** JSON Merge Patch (RFC 7386). */
    method Merge(path: string, body: Json, qs: Option<Query>, host: Host, reply: Reply) returns (r: Result<Body, Error>, sent: Option<OptionsValue>)
      modifies base
      ensures old(base.kubeConfig) != null ==> base.kubeConfig == old(base.kubeConfig)
      ensures base.Cached() == CachedAfter(old(base.Cached()), host)
      ensures Outcome(r, sent) == CallOutcome(Configuration(old(base.Cached()), host), MergeCall(body), path, qs, host, reply)
    {
      r, sent := Send(MergeCall(body), path, qs, host, reply);
    }

    method Delete(path: string, qs: Option<Query>, host: Host, reply: Reply) returns (r: Result<Body, Error>, sent: Option<OptionsValue>)
      modifies base
      ensures old(base.kubeConfig) != null ==> base.kubeConfig == old(base.kubeConfig)
      ensures base.Cached() == CachedAfter(old(base.Cached()), host)
      ensures Outcome(r, sent) == CallOutcome(Configuration(old(base.Cached()), host), DeleteCall, path, qs, host, reply)
    {
      r, sent := Send(DeleteCall, path, qs, host, reply);
    }

    /** One `this.get(path, queryParameters)` of the listing loop, seen as the page it yields. */
    method ListRequest(path: string, q: Query, host: Host, replies: seq<Reply>, i: nat, ghost cfg: Result<Loaded, Error>)
      returns (page: Result<Body, Error>)
      requires i < |replies|
      requires Configuration(base.Cached(), host) == cfg
      modifies base
      ensures old(base.kubeConfig) != null ==> base.kubeConfig == old(base.kubeConfig)
      ensures base.Cached() == CachedAfter(old(base.Cached()), host)
      ensures page == ListPages(cfg, path, host, replies)[i]
    {
      var sent;
      page, sent := Get(path, Some(q), host, replies[i]);
      GetOutcomeIgnoresQuery(cfg, path, Some(q), host, replies[i]);
      ListPagesAt(cfg, path, host, replies, i);
    }

    /**
     * `getAll`: GET requests, one per reply, each carrying the previous
     * page's `continue` token, until a page without one; the result is the
     * listing of those pages. `queries` are the query records the requests
     * were made with, in order.
     */
    method GetAll(path: string, queryParameters: Option<Query>, host: Host, replies: seq<Reply>)
      returns (r: Result<ListResult, Error>, queries: seq<Query>)
      requires RepliesEnd(replies)
      modifies base
      ensures old(base.kubeConfig) != null ==> base.kubeConfig == old(base.kubeConfig)
      ensures base.Cached() == CachedAfter(old(base.Cached()), host)
      ensures var pages := ListPages(Configuration(old(base.Cached()), host), path, host, replies);
        && Ends(pages)
        && r == Paginate(pages)
        && queries == QueriesSent(WithDefaultLimit(queryParameters), pages, RequestCount(pages))
    {
      ghost var cfg := Configuration(old(base.Cached()), host);
      ghost var pages := ListPages(cfg, path, host, replies);
      ListPagesEnd(cfg, path, host, replies);
      var q := WithDefaultLimit(queryParameters);
      var items: seq<Json> := [];
      var continueValue: Option<string> := None;
      var i := 0;
      queries := [];
      assert pages[0..] == pages;
      PrefixedNothing(Paginate(pages));
      while true
        invariant 0 <= i < |pages|
        invariant forall j :: 0 <= j < i ==> Continues(pages[j])
        invariant Ends(pages[i..])
        invariant Paginate(pages) == Prefixed(items, Paginate(pages[i..]))
        invariant continueValue == ContinueSent(pages, i)
        invariant queries == QueriesSent(WithDefaultLimit(queryParameters), pages, i)
        invariant i == 0 ==> q == WithDefaultLimit(queryParameters)
        invariant i > 0 ==> q == WithContinue(WithDefaultLimit(queryParameters), ContinueSent(pages, i - 1))
        invariant old(base.kubeConfig) != null ==> base.kubeConfig == old(base.kubeConfig)
        invariant Configuration(base.Cached(), host) == cfg
        invariant base.Cached() == old(base.Cached()) || base.Cached() == CachedAfter(old(base.Cached()), host)
        decreases |pages| - i
      {
        if i > 0 {
          ContinueReplaced(WithDefaultLimit(queryParameters), ContinueSent(pages, i - 1), continueValue);
        }
        q := WithContinue(q, continueValue);
        queries := queries + [q];
        var response := ListRequest(path, q, host, replies, i, cfg);
        if !Continues(response) {
          PaginateExit(pages, i, items);
          r := ClosingPage(items, response);
          break;
        }
        PaginateContinue(pages, i, items);
        items := items + response.value.items;
        continueValue := response.value.metadata.continueToken;
        i := i + 1;
      }
    }
  }
}
