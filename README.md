# k8s-api-client, modelled in Dafny

This project models the decision-making core of FireBlink's `k8s-api-client`, a small TypeScript
client for the Kubernetes API, and proves properties about it.

**Kubeconfig resolution** (`KubeConfigs`, `kube_config.dfy`)
- The `KubeConfig` class picks its source in priority order: `$KUBECONFIG`, then `~/.kube/config`, then the in-pod service-account token.
- For a file, it validates the document: the `apiVersion`, the `current-context` override, and the clusters, contexts and users sections.
- It then looks up the context, the user and the cluster, each by the first entry with the wanted name.
- For the service account, it derives the server URL, choosing `http` or `https` by port.

**Configuration cache and options derivation** (`BaseRequest`, `base_request_processor.dfy`)
- `BaseRequestProcessor` holds a one-slot configuration cache (`loadConfig`/`updateConfig`).
- `updateRequestOptions` updates an options record in place with a fixed precedence.
  - Inline `*-data` beats a file path for `ca`, `cert` and `key`.
  - A token sets a bearer header.
  - Basic auth is set only with both a username and a password.
  - An insecure cluster turns certificate checking off.

**Requests and paginated listing**
- `ApiRequests`, `api_request_processor.dfy`: `APIRequestProcessor`'s `makeRequest` status classification, the six verbs, and the `getAll` pagination loop.
- `GetRequests`, `get_request_processor.dfy`: the older `GetRequestProcessor`, with its own `get`/`getAll`.
- `Pagination`, `pagination.dfy`: both `getAll` loops are proved against the reference definition of the listing defined here.

**The watch engine** (`WatchRequests`, `watch_request_processor.dfy`)
- `WatchRequestProcessor` sends a long-polling GET with `watch=true` and reads the decoded records one by one.
- A `Status` failure record rejects the watch.
- A change record goes to the caller's added / modified / deleted handler, strictly one at a time.
- The cursor moves to the record's `resourceVersion` only after its handler succeeds.
- At the end of the stream the watch rejects, stops, or reconnects from the latest cursor.

**Shared modules**
- `Wrappers`: `Option`, `Result`.
- `JsValues`: JavaScript truthiness, `toLowerCase` over ASCII, and number-to-string.
- `Interfaces`: the `IKubeConfig*`, `IPatchBody` and watch-record shapes, `RequestError`, and response bodies.
- `Requests`: the mutable options record and transport replies.

**How the outside world enters the model**
- The host is an input value, `KubeConfigs.Host`. It holds the environment variables, the home directory, the files with their contents, and the YAML parser.
- The transport is an input too. Each request consumes one `Reply`, and a watch consumes one `Stream` of decoded records.
- A watch handler is a function from the record's object to how it settles: resolved (having called `abort()` or not), or rejected with an error.

**How the classes are modelled**
- Every class whose fields change is a Dafny `class`: `KubeConfig`, `BaseRequestProcessor`, `RequestOptions`, and the three processors.
- Each processor holds its `BaseRequestProcessor` in a `base` field, since Dafny classes do not inherit.
- Each method is proved against a specification function of the configuration it starts from, such as `WatchOutcome`, `CallOutcome` or `Paginate`. The properties of the source are then proved about those functions.

Where the documented behaviour of the library, or its test suite, and its code disagree, the model follows the code:
- A `Status` failure rejects with the bare `record.message` string, not with an `Error` (src/processors/WatchRequestProcessor.ts:89); the model rejects with that message (`WatchRejected(Thrown(...))`). The test at test/unit/processors/WatchRequestProcessorTestSuite.ts:91 reads `error.message` of this rejection, which a string does not have.
- A `Status` failure record only sets `aborted` and rejects. It does not cancel the request (src/processors/WatchRequestProcessor.ts:85-90).
- There is no reconnect on transport errors, because the code has no `'error'` listener.
- There is no handling of `Status` success records and no "Gone" signal.
- A watch whose stream ends cleanly, without an abort, resolves and schedules a new watch (src/processors/WatchRequestProcessor.ts:103-130). It does not stay pending until an abort.

## Model

| member | source | states |
|---|---|---|
| KubeConfigs.ReadDocument | src/models/KubeConfig.ts:82-83 | a missing file fails with FileNotFound; otherwise the result is the YAML parser's on the file's contents |
| KubeConfigs.FileSelection | src/models/KubeConfig.ts:81-126 | a missing file fails with FileNotFound and an unparsable one with the parser's error; a selection is the first user and the first cluster named by the effective context of the parsed document |
| KubeConfigs.FindByName | src/models/KubeConfig.ts:108-125 | `find` by name: nothing exactly when no entry has the name, else the first entry with it |
| KubeConfigs.EffectiveContext | src/models/KubeConfig.ts:91 | a non-empty `currentContext` argument overrides the file's `current-context` |
| KubeConfigs.SelectContext | src/models/KubeConfig.ts:85-111 | succeeds iff apiVersion is `v1`, a current context is set, all three sections exist and a context has that name (the first one is chosen); each failure is the source's error, in the source's order, with its message |
| KubeConfigs.Resolve | src/models/KubeConfig.ts:85-125 | after the context, succeeds iff the context's user and cluster both exist (first match each); a missing user, then a missing cluster, fail with their messages |
| KubeConfigs.SchemeFor | src/models/KubeConfig.ts:54-57 | the scheme is `http` exactly for ports 80, 8080 and 8001, else `https` |
| KubeConfigs.ServiceAccountSelection | src/models/KubeConfig.ts:50-74 | succeeds iff the token file exists; token-only user, server `scheme://host:port` (with `undefined` for unset variables), CA path, both names empty |
| KubeConfigs.ChooseSource | src/models/KubeConfig.ts:19-44 | the source is `$KUBECONFIG` iff it is non-empty, else the default file iff it exists, else the token iff it exists, else none |
| KubeConfigs.LoadSelection | src/models/KubeConfig.ts:19-45 | with no source at all, `load` fails with `Unable to load kube config` |
| KubeConfigs.LoadFollowsSourcePriority | src/models/KubeConfig.ts:19-45 | the configuration comes from the first available source, and loading fails exactly when that source fails |
| KubeConfigs.LoadAsWritten | src/models/KubeConfig.ts:19-45 | as written, `load` delivers a configuration only from `$KUBECONFIG`; the unawaited default-file and token loaders resolve it before anything is set |
| KubeConfigs.UnawaitedLoadResolvesUnset | src/models/KubeConfig.ts:27-42 | for the default file or the token, `load` as written resolves with nothing loaded, whatever the loader later does |
| KubeConfigs.UnawaitedDefaultFileExample | src/models/KubeConfig.ts:28-34 | a valid `~/.kube/config`: `load` as written resolves with nothing loaded, while the awaited load selects its user and cluster |
| KubeConfigs.KubeConfig.constructor | src/models/KubeConfig.ts:13-14 | a new configuration has no user and no cluster |
| KubeConfigs.KubeConfig.LoadFromFile | src/models/KubeConfig.ts:81-126 | on success user and cluster are the resolved ones; on failure the error is `Resolve`'s, and the fields hold what the source had assigned before it threw |
| KubeConfigs.KubeConfig.LoadFromServiceAccountToken | src/models/KubeConfig.ts:50-74 | sets user and cluster to the service-account selection, or fails with the unreadable token file and changes nothing |
| KubeConfigs.KubeConfig.Load | src/models/KubeConfig.ts:19-45 | succeeds iff the chosen source loads, and then holds its user and cluster |
| BaseRequest.Material | src/processors/BaseRequestProcessor.ts:47-51 | one TLS field: base64 data wins over the file, the file's contents next, else unchanged; fails only for an unreadable file |
| BaseRequest.WithPem | src/processors/BaseRequestProcessor.ts:47-63 | sets exactly one of `ca`, `cert` and `key` and leaves every other field |
| BaseRequest.PemStep | src/processors/BaseRequestProcessor.ts:47-63 | applies one data-over-file pair: fails iff the file it needs is missing, else follows the precedence and changes only that field |
| BaseRequest.WithHeader | src/processors/BaseRequestProcessor.ts:65-70 | sets one header, creating the record if absent and keeping every other header |
| BaseRequest.TlsStep | src/processors/BaseRequestProcessor.ts:45-63 | fails iff the cluster or user is unset or a needed file is missing (cluster first); otherwise `ca`, `cert`, `key` follow data-over-file; no other field changes |
| BaseRequest.CredentialStep | src/processors/BaseRequestProcessor.ts:65-81 | a token sets `Authorization: Bearer <token>`; insecure TLS sets `rejectUnauthorized = false`; `auth` is set iff both username and password are present; everything else kept |
| BaseRequest.Derive | src/processors/BaseRequestProcessor.ts:43-82 | url, method, query, body and JSON mode are never touched; the derivation fails iff the configuration is not derivable |
| BaseRequest.DeriveFollowsPrecedence | src/processors/BaseRequestProcessor.ts:43-82 | every precedence rule of `updateRequestOptions` at once, including the error cases and that a failure leaves headers, TLS check and auth untouched |
| BaseRequest.DeriveErrorIgnoresOptions | src/processors/BaseRequestProcessor.ts:45-63 | whether and how derivation fails depends only on the configuration, not on the options |
| BaseRequest.TlsStepIsStable | src/processors/BaseRequestProcessor.ts:47-63 | the TLS assignments leave options alone whose `ca`, `cert` and `key` they already produced |
| BaseRequest.CredentialStepIsIdempotent | src/processors/BaseRequestProcessor.ts:65-82 | applying the bearer token, skip-verify and basic-auth assignments twice gives what applying them once does |
| BaseRequest.DeriveIsIdempotent | src/processors/BaseRequestProcessor.ts:43-82 | applying the configuration twice gives the same options as once |
| BaseRequest.BearerAndBasicAuthTogether | src/processors/BaseRequestProcessor.ts:65-81 | a token and username/password set both the bearer header and `auth`; they do not exclude each other |
| BaseRequest.UnsetClusterRejects | src/processors/BaseRequestProcessor.ts:45-47 | with no cluster loaded, deriving options rejects and changes nothing |
| BaseRequest.Configuration | src/processors/BaseRequestProcessor.ts:24-37 | a cached configuration is returned as is; otherwise the result is that of `load` |
| BaseRequest.ConfigurationIsCached | src/processors/BaseRequestProcessor.ts:24-37 | once loaded, a configuration is returned unchanged by every later `loadConfig` |
| BaseRequest.CachedAfter | src/processors/BaseRequestProcessor.ts:24-37 | the cache keeps its value, is filled by a successful load, and stays empty after a failed one |
| BaseRequest.Update | src/processors/BaseRequestProcessor.ts:43-82 | a configuration error is passed on with the options unchanged; otherwise the options are derived |
| BaseRequest.ServerUrl | src/processors/APIRequestProcessor.ts:65-69 | the URL is the cluster's server followed by the path; with no cluster, the read of `cluster.server` throws |
| BaseRequest.BaseRequestProcessor.constructor | src/processors/BaseRequestProcessor.ts:9-10 | a processor starts with no cached configuration |
| BaseRequest.BaseRequestProcessor.UpdateConfig | src/processors/BaseRequestProcessor.ts:16-19 | replaces the cache with the given configuration |
| BaseRequest.BaseRequestProcessor.LoadConfig | src/processors/BaseRequestProcessor.ts:24-37 | returns the cached object itself when set; otherwise a fresh loaded one, which is cached only when loading succeeds |
| BaseRequest.BaseRequestProcessor.UpdateRequestOptions | src/processors/BaseRequestProcessor.ts:43-82 | the options after the call, and its error, are `Update` of the options before |
| BaseRequest.BaseRequestProcessor.ApplyPem | src/processors/BaseRequestProcessor.ts:47-63 | one data-over-file pair applied in place, as `PemStep` |
| BaseRequest.BaseRequestProcessor.SetPem | src/processors/BaseRequestProcessor.ts:47-63 | one TLS field assigned in place, as `WithPem` |
| BaseRequest.BaseRequestProcessor.ApplyConfig | src/processors/BaseRequestProcessor.ts:47-81 | all field updates applied in place: the new options and the error are `Derive`'s |
| Requests.RequestOptions.constructor | src/processors/APIRequestProcessor.ts:67-71 | an options record holds exactly the fields it is built with |
| Pagination.WithDefaultLimit | src/processors/APIRequestProcessor.ts:204-210 | `limit` becomes 100 when absent or falsy, else the caller's value is kept; no other key changes |
| Pagination.WithContinue | src/processors/APIRequestProcessor.ts:221 | sets `continue` to the token, or to `undefined`, keeping every other key |
| Pagination.PageList | src/processors/APIRequestProcessor.ts:224 | a rejected page rejects the listing; a non-list body fails to spread its `items` |
| Pagination.EndsAfterContinuing | src/processors/APIRequestProcessor.ts:220-228 | if some page ends the loop and the first continues, a later page ends it |
| Pagination.Paginate | src/processors/APIRequestProcessor.ts:220-228 | a first page that is not a list fails the listing with its error; a listing starts with the first page's items; `PaginateIsListing` proves it equal to the independent `Listing` |
| Pagination.PaginateFailsOnSomePage | src/processors/APIRequestProcessor.ts:220-228 | a failed listing fails with the error of one of the pages it read |
| Pagination.ClosingPage | src/processors/APIRequestProcessor.ts:222-230 | the page that ends the loop rejects with its error, or with the TypeError of spreading a non-list, or gives the items fetched before it followed by its own, with its resource version |
| Pagination.PaginateStep | src/processors/APIRequestProcessor.ts:220-228 | one loop turn: a page with a non-empty continue token appends its items and goes on with the next page |
| Pagination.PaginateExit | src/processors/APIRequestProcessor.ts:220-230 | the first page without a continue token is the last request; the listing's version is that page's |
| Pagination.PaginateContinue | src/processors/APIRequestProcessor.ts:220-228 | a continuing page's items are appended after those of the pages before it |
| Pagination.RequestCount | src/processors/APIRequestProcessor.ts:220-228 | the loop makes at least one request and stops exactly after the first page whose continue token is empty or missing |
| Pagination.ContinueSent | src/processors/APIRequestProcessor.ts:217-227 | the first request carries no continue token; each later one carries the previous page's non-empty token |
| Pagination.QueriesSent | src/processors/APIRequestProcessor.ts:204-228 | one query per request, each the defaulted query with that request's continue token |
| Pagination.ContinueReplaced | src/processors/APIRequestProcessor.ts:221 | setting `continue` again replaces the previous token |
| Pagination.PaginateIsListing | src/processors/APIRequestProcessor.ts:212-230 | the loop's result is the reference listing: all pages' items concatenated in fetch order, with the last page's resource version, or the first failure |
| Pagination.PaginateIgnoresLaterPages | src/processors/APIRequestProcessor.ts:220-228 | replies after the page that ends the loop are never looked at |
| Pagination.SinglePageListing | src/processors/APIRequestProcessor.ts:220-230 | a page without a continue token is the whole listing after one request |
| Pagination.TwoPageListing | src/processors/APIRequestProcessor.ts:220-230 | a token then an empty token: two requests, the second carrying the token; items concatenated, the second page's version |
| ApiRequests.MethodOf | src/processors/APIRequestProcessor.ts:68-182 | `patch` and `merge` both send PATCH, and only they do |
| ApiRequests.CallOptions | src/processors/APIRequestProcessor.ts:64-188 | each verb's options: the URL, the verb's method and the caller's query unchanged; the body for post, put, patch and merge; the RFC 6902 or RFC 7386 content type for patch and merge |
| ApiRequests.ClassifyReply | src/processors/APIRequestProcessor.ts:38-54 | resolves with the body iff there is no transport error and the status is 200-299; a transport error rejects as it is; any other status rejects with `<METHOD> <URL> request failed. <code>: <message>`, the status and the body |
| ApiRequests.MakeRequestOutcome | src/processors/APIRequestProcessor.ts:15-57 | sends the options derived with `json = true`; a derivation error rejects before sending; otherwise the reply is classified |
| ApiRequests.CallOutcome | src/processors/APIRequestProcessor.ts:15-193 | a configuration error or a missing cluster rejects before anything is sent; nothing sent means a rejection; what is sent uses the verb's method in JSON mode |
| ApiRequests.SentRequestFollowsCall | src/processors/APIRequestProcessor.ts:64-188 | every verb sends `server + path` with its method, the query unchanged, its body, JSON mode and the patch content types; it resolves iff it was sent and the reply is 2xx |
| ApiRequests.APIRequestProcessor.constructor | src/processors/APIRequestProcessor.ts:10 | a processor starts with an empty configuration cache |
| ApiRequests.APIRequestProcessor.MakeRequest | src/processors/APIRequestProcessor.ts:15-57 | sets `json = true`, derives the options in place, and classifies the reply as `MakeRequestOutcome` |
| ApiRequests.APIRequestProcessor.Send | src/processors/APIRequestProcessor.ts:65-73 | load the configuration, build a verb's options, then `makeRequest` |
| ApiRequests.APIRequestProcessor.Get | src/processors/APIRequestProcessor.ts:64-74 | `get` as `CallOutcome` of a GET |
| ApiRequests.APIRequestProcessor.Post | src/processors/APIRequestProcessor.ts:82-97 | `post` as `CallOutcome` of a POST with the body |
| ApiRequests.APIRequestProcessor.Put | src/processors/APIRequestProcessor.ts:105-116 | `put` as `CallOutcome` of a PUT with the body |
| ApiRequests.APIRequestProcessor.Patch | src/processors/APIRequestProcessor.ts:126-144 | `patch` as `CallOutcome` of a JSON Patch |
| ApiRequests.APIRequestProcessor.Merge | src/processors/APIRequestProcessor.ts:153-171 | `merge` as `CallOutcome` of a JSON Merge Patch |
| ApiRequests.APIRequestProcessor.Delete | src/processors/APIRequestProcessor.ts:178-188 | `delete` as `CallOutcome` of a DELETE |
| ApiRequests.APIRequestProcessor.ListRequest | src/processors/APIRequestProcessor.ts:222 | one request of the loop yields the page its reply makes |
| ApiRequests.APIRequestProcessor.GetAll | src/processors/APIRequestProcessor.ts:195-231 | the loop's result is `Paginate` of the pages, and the queries it sent are `QueriesSent` of the defaulted query |
| GetRequests.ShowBody | src/processors/GetRequestProcessor.ts:36 | a text body is shown as itself, an object as `[object Object]` |
| GetRequests.ClassifyReply | src/processors/GetRequestProcessor.ts:28-40 | resolves with the body iff there is no transport error and the status is 200-299; any other status rejects with `Response failed. <code>: <message>. Body: <body>` |
| GetRequests.GetOutcome | src/processors/GetRequestProcessor.ts:12-41 | a configuration error or a missing cluster rejects before anything is sent; nothing sent means a rejection; what is sent is a JSON GET |
| GetRequests.SentGetRequest | src/processors/GetRequestProcessor.ts:12-41 | `get` sends `server + path` as a JSON GET with the query unchanged and a header record, and resolves iff it was sent and the reply is 2xx |
| GetRequests.RevisionsAgree | src/processors/GetRequestProcessor.ts:12-41 | both `get` revisions send the same request, apart from the initial header record, and agree on success, on the body and on every error raised before sending |
| GetRequests.GetRequestProcessor.constructor | src/processors/GetRequestProcessor.ts:6 | a processor starts with an empty configuration cache |
| GetRequests.GetRequestProcessor.Get | src/processors/GetRequestProcessor.ts:12-41 | `get` as `GetOutcome` |
| GetRequests.GetRequestProcessor.ListRequest | src/processors/GetRequestProcessor.ts:74 | one request of the loop yields the page its reply makes |
| GetRequests.GetRequestProcessor.GetAll | src/processors/GetRequestProcessor.ts:48-83 | the loop's result is `Paginate` of the pages, and the queries it sent are `QueriesSent` of the defaulted query |
| WatchRequests.ParseEventType | src/processors/WatchRequestProcessor.ts:92-94 | the record's `type`, lowercased, names added, modified or deleted exactly when it equals that word |
| WatchRequests.Dispatch | src/processors/WatchRequestProcessor.ts:92-100 | a record goes to a handler iff its type parses and that type's handler is registered |
| WatchRequests.CursorOf | src/processors/WatchRequestProcessor.ts:75 | the new cursor is `object.metadata.resourceVersion`; reading it throws when the object or its metadata is missing |
| WatchRequests.IsStatusFailure | src/processors/WatchRequestProcessor.ts:85-86 | its body is the definition: a truthy `kind` that lowercases to `status` and a truthy `status` that lowercases to `failure` (mixed case shown by `ExpiredCursorExample`); its contract adds only that such a `kind` has six letters and such a `status` seven |
| WatchRequests.StopAt | src/processors/WatchRequestProcessor.ts:78-90 | a record that does not stop processing is not a status failure; a handler's abort stops only after the cursor moved |
| WatchRequests.Step | src/processors/WatchRequestProcessor.ts:67-101 | one record runs at most one handler, exactly when it is handed to one; the cursor moves only when that handler resolved and the version could be read; a status failure runs no handler, keeps the cursor and stops with its message |
| WatchRequests.Process | src/processors/WatchRequestProcessor.ts:67-101 | the record loop takes at least one record of a non-empty stream and never more than it has, takes them all when the stream ends it, and runs at most one handler per record taken |
| WatchRequests.ProcessStopsAtFirstTerminal | src/processors/WatchRequestProcessor.ts:67-101 | processing ends with the stream iff no record is terminal; otherwise it stops at the first terminal record, with that record's reason |
| WatchRequests.ProcessInvokesDispatched | src/processors/WatchRequestProcessor.ts:70-100 | handlers run exactly for the dispatched records, in record order, up to where processing stopped |
| WatchRequests.ProcessCursorIsLastAcked | src/processors/WatchRequestProcessor.ts:70-83 | the cursor is the resource version of the last record whose handler succeeded, or the starting cursor |
| WatchRequests.AbortEffect | src/processors/WatchRequestProcessor.ts:25-31 | with an active request: aborted, that request cancelled, none active; without one: nothing changes |
| WatchRequests.AbortIsIdempotent | src/processors/WatchRequestProcessor.ts:25-31 | a second `abort()` has no effect |
| WatchRequests.WatchQuery | src/processors/WatchRequestProcessor.ts:53-56 | `watch=true` always; `resourceVersion` only for a non-empty cursor; other keys kept |
| WatchRequests.StateAfter | src/processors/WatchRequestProcessor.ts:58-122 | after the stream no request is active, and the processor is aborted iff it was or processing stopped early |
| WatchRequests.Settle | src/processors/WatchRequestProcessor.ts:85-130 | a status failure rejects with its message and a handler failure with its error; otherwise status >= 400 rejects with `Request failed`; a resolved watch reconnects from the cursor iff not aborted |
| WatchRequests.RecordEffect | src/processors/WatchRequestProcessor.ts:78-90 | a record that does not stop processing changes nothing; an aborted processor stays aborted, and an active request that a record stops is aborted; only a handler failure or abort cancels, appending to the cancelled requests and clearing the active one |
| WatchRequests.WatchRequest | src/processors/WatchRequestProcessor.ts:42-56 | the request is a GET of `server + path` whose query is the watch query, or a configuration error |
| WatchRequests.StreamRun | src/processors/WatchRequestProcessor.ts:58-131 | after sending: the handler runs are the dispatched records up to where processing stopped, no request stays active, at most the one request is cancelled, and a resolved watch reconnects exactly when the processor is not aborted |
| WatchRequests.WatchOutcome | src/processors/WatchRequestProcessor.ts:39-131 | nothing is sent exactly when the request cannot be built, and then the watch rejects with that error, runs no handler and leaves the processor as it was; what is sent is a GET, and afterwards no request is active |
| WatchRequests.WatchStateOnEveryExit | src/processors/WatchRequestProcessor.ts:42-122 | a failure before sending rejects and changes nothing; once sent, the active request is always cleared |
| WatchRequests.ReconnectsFromLatestCursor | src/processors/WatchRequestProcessor.ts:70-130 | the watch reconnects iff no record is terminal, the status is below 400 and the processor was not aborted; it reconnects from the last acknowledged version |
| WatchRequests.AbortedProcessorNeverReconnects | src/processors/WatchRequestProcessor.ts:120-130 | once aborted, a processor stays aborted and never reconnects |
| WatchRequests.HandlerRejectionEndsWatch | src/processors/WatchRequestProcessor.ts:78-81 | a rejecting handler ends the watch with its error, cancels the request, aborts, and no later handler runs |
| WatchRequests.StatusFailureRejectsWithMessage | src/processors/WatchRequestProcessor.ts:85-90 | a status failure at any position after records that did not stop processing rejects with its message unchanged, sets aborted and cancels nothing; no handler runs for it, and the handlers run are those of the records up to it |
| WatchRequests.ExpiredCursorExample | src/processors/WatchRequestProcessor.ts:85-90 | `Status`/`Failure` match in any letter case; the server's invalid-cursor message for `-1` passes through verbatim |
| WatchRequests.UpperCaseEventTypes | src/processors/WatchRequestProcessor.ts:92-94 | the API server's `ADDED`, `MODIFIED`, `DELETED` select the three handlers |
| WatchRequests.AbortOnDeleteSession | src/processors/WatchRequestProcessor.ts:67-101 | added, modified, then deleted with an aborting handler: three runs in order, the cursor at the deleted object's version |
| WatchRequests.AddModifyDeleteAbortExample | src/processors/WatchRequestProcessor.ts:67-130 | that scenario resolves without reconnecting, with the request cancelled and the processor aborted |
| WatchRequests.WatchRequestProcessor.constructor | src/processors/WatchRequestProcessor.ts:18-20 | a processor starts with no active request, not aborted |
| WatchRequests.WatchRequestProcessor.Abort | src/processors/WatchRequestProcessor.ts:25-31 | the new state is `AbortEffect` of the old one |
| WatchRequests.WatchRequestProcessor.Watch | src/processors/WatchRequestProcessor.ts:39-131 | the result, the request sent, the handler runs and the new state are `WatchOutcome`'s |
| WatchRequests.WatchRequestProcessor.Settled | src/processors/WatchRequestProcessor.ts:85-130 | the promise settles as `Settle` says for the session, the status and the processor's current `aborted` flag |
| WatchRequests.WatchRequestProcessor.BuildRequest | src/processors/WatchRequestProcessor.ts:42-56 | builds the options in place and returns `WatchRequest` |
| WatchRequests.WatchRequestProcessor.HandleRecord | src/processors/WatchRequestProcessor.ts:67-101 | one record's handler run, cursor and stop are `Step`'s, and the state changes as `RecordEffect` |
| WatchRequests.WatchRequestProcessor.HandleRecords | src/processors/WatchRequestProcessor.ts:60-101 | the loop over the records computes `Process` and leaves the state `RecordEffect` of its stop |

## Left out

- The HTTP transport (the `request` library) and the `JsonStreamReader` decoder are foreign libraries. Replies, HTTP statuses and decoded records are inputs.
- Promise and event-loop timing is not modelled: `queue` chaining, `pause`/`resume`, and the `setTimeout` reconnect. Each handler runs to completion before the next record is read, and a reconnect is returned as the next watch's starting cursor instead of being scheduled.
- WatchRequests.Process: the first settlement of a watch wins. The model does not capture what the source still does afterwards in the same stream.
  - After a status failure, the source keeps handling records, including the failure record's own `type`, while the promise is already rejected.
  - Records the transport had already buffered when `abort()` ran are not handled.
- The `'request'` event is modelled as happening before the first record. Every record therefore sees an active request.
- WatchRequests.Settle: after a handler calls `abort()`, the model assumes the stream ends and its `'finish'` event fires, as the library's own add/modify/delete scenario expects.
- WatchRequests.WatchRecord: `kind`, `status`, `message` and `type` are strings or absent. Non-string values, on which `toLowerCase` would throw, are not modelled.
- `Lower` lowercases ASCII letters only. Unicode case mapping is not modelled.
- BaseRequest.Configuration: it, `BaseRequest.BaseRequestProcessor.LoadConfig` and every processor built on them use the awaited `KubeConfigs.LoadSelection`. As written, `loadConfig` on the default-file and service-account paths caches a `KubeConfig` with nothing set, and the first request then throws on `kc.cluster.cluster`; only `KubeConfigs.LoadAsWritten` represents that.
- YAML parsing, file reads, `process.env`, `homedir` and `exists` are the `Host` input.
- KubeConfigs.DefaultConfigPath: concatenates the home directory with `/.kube/config` instead of calling `path.join`, so it does not normalise a home directory that ends in `/` or is empty (`path.join` gives one slash, or `.kube/config`).
- Base64 decoding and file bytes are kept symbolic as `Pem`.
- `debug` logging is not modelled.
- GetAll needs a reply that ends the listing (`RepliesEnd`). An endless chain of continue tokens, on which the source loops forever, is not modelled.
- The `queryParameters` object that `getAll` mutates is not modelled as the caller's object. GetAll returns the query of each request it sent instead.
- Pagination.PageList: a response that is not a list fails with a fixed `TypeError`. JavaScript's exact message, and spreading a non-array `items` value, are not modelled.
- GetRequests.ShowBody: a body that is not text is shown as `[object Object]`. How JavaScript prints arrays and other values is not modelled.
- The transport-level `error` listener with retry, a Gone/410 handler and reconnect limits are not modelled, because the code has none of them.
- Concurrent `watch` calls on one processor are not modelled; the source does not support them.

## Findings

| source | as written | input that shows it | evidently intended | confidence | as-written member | corrected member |
|---|---|---|---|---|---|---|
| src/models/KubeConfig.ts:31 | `load` starts `loadFromFile` (and at line 39 `loadFromServiceAccountToken`) without `await`, so it resolves before `user` and `cluster` are set and drops the loader's errors | no `$KUBECONFIG`, and a valid `~/.kube/config` (`UnawaitedDefaultFileExample`); the first request then reads `cluster` of an unset configuration | await the loader as the `$KUBECONFIG` branch does, so `load` resolves with the file's user and cluster or rejects with its error | not executed | KubeConfigs.LoadAsWritten | KubeConfigs.LoadSelection |
