/**
 * WatchRequestProcessor: a long-polling GET with `watch=true` whose decoded
 * records are handled one at a time. Each record is either a terminal
 * `Status` failure or a change event for the caller's added / modified /
 * deleted handler. The cursor advances only after a handler succeeds, and
 * when the stream ends the watch rejects, stops, or asks to reconnect from
 * the latest cursor.
 *
 * The stream arrives as a sequence of decoded records, and a handler is a
 * function from the record's object to how it settles. Handlers run
 * strictly one after another, so the watch is a loop over the records; the
 * first settlement of the watch promise decides its result.
 */
module WatchRequests {
  import opened Wrappers
  import opened JsValues
  import opened Interfaces
  import opened KubeConfigs
  import opened Requests
  import opened BaseRequest

  datatype EventType = Added | Modified | Deleted

  /** How a caller's handler settles: resolved (after calling `abort()` on the processor, or not), or rejected. */
  datatype HandlerOutcome = Resolved(callsAbort: bool) | Rejected(error: Error)

  /** IWatchHandlers' WatchHandler, as the way it settles for the object it is given. */
  type Handler = Option<WatchObject> -> HandlerOutcome

  /** IWatchHandlers: an optional handler per event type. */
  datatype Handlers = Handlers(added: Option<Handler>, modified: Option<Handler>, deleted: Option<Handler>)

  /** A decoded record: the fields the processor looks at, each possibly absent. */
  datatype WatchRecord = WatchRecord(
    kind: Option<string>,
    status: Option<string>,
    message: Option<string>,
    eventType: Option<string>,
    obj: Option<WatchObject>)

  /** A handler run: the event type and the object it was given. */
  datatype Invocation = Invocation(eventType: EventType, obj: Option<WatchObject>)

  /** The transport's handle on a request, which `abort()` cancels. */
  type RequestId = nat

  /** The connection: the request it belongs to, its HTTP status (if a response came), and its records. */
  datatype Stream = Stream(request: RequestId, status: Option<int>, records: seq<WatchRecord>)

  // ---------------------------------------------------------------------------
  // One record

  /** `kind` is `status` and `status` is `failure`, both compared case-insensitively. */
  function IsStatusFailure(r: WatchRecord): (b: bool)
    ensures b ==> r.kind.Some? && |r.kind.value| == 6 && r.status.Some? && |r.status.value| == 7
  {
    && Truthy(r.kind) && Lower(r.kind.value) == "status"
    && Truthy(r.status) && Lower(r.status.value) == "failure"
  }

  /** The event type a record's `type` names, once lowercased; nothing for any other `type` or none. */
  function ParseEventType(t: Option<string>): (e: Option<EventType>)
    ensures e == Some(Added) <==> Truthy(t) && Lower(t.value) == "added"
    ensures e == Some(Modified) <==> Truthy(t) && Lower(t.value) == "modified"
    ensures e == Some(Deleted) <==> Truthy(t) && Lower(t.value) == "deleted"
  {
    if !Truthy(t) then None
    else
      var lowered := Lower(t.value);
      if lowered == "added" then Some(Added)
      else if lowered == "modified" then Some(Modified)
      else if lowered == "deleted" then Some(Deleted)
      else None
  }

  function HandlerFor(h: Handlers, e: EventType): Option<Handler> {
    match e
    case Added => h.added
    case Modified => h.modified
    case Deleted => h.deleted
  }

  /** The event type whose registered handler a record is given to, if any. */
  function Dispatch(r: WatchRecord, h: Handlers): (e: Option<EventType>)
    ensures e.Some? <==> ParseEventType(r.eventType).Some? && HandlerFor(h, ParseEventType(r.eventType).value).Some?
    ensures e.Some? ==> e == ParseEventType(r.eventType)
  {
    match ParseEventType(r.eventType)
    case None => None
    case Some(e) => if HandlerFor(h, e).Some? then Some(e) else None
  }

  /** The record is handed to a handler: it is not a status failure and its type has a handler. */
  predicate Handled(r: WatchRecord, h: Handlers) {
    !IsStatusFailure(r) && Dispatch(r, h).Some?
  }

  /** How the handler a record is given to settles. */
  function Run(r: WatchRecord, h: Handlers): HandlerOutcome
    requires Dispatch(r, h).Some?
  {
    var handler := HandlerFor(h, Dispatch(r, h).value).value;
    handler(r.obj)
  }

  /** `record.object.metadata.resourceVersion`, which throws when the object or its metadata is missing. */
  function CursorOf(obj: Option<WatchObject>): (r: Result<Option<string>, Error>)
    ensures r.Success? <==> obj.Some? && obj.value.metadata.Some?
    ensures r.Success? ==> r.value == obj.value.metadata.value.resourceVersion
  {
    if obj.None? then Failure(TypeError("Cannot read property 'metadata' of undefined"))
    else if obj.value.metadata.None? then Failure(TypeError("Cannot read property 'resourceVersion' of undefined"))
    else Success(obj.value.metadata.value.resourceVersion)
  }

  /** The record's handler resolved and its resource version could be read: the cursor moves to it. */
  predicate Acks(r: WatchRecord, h: Handlers) {
    Handled(r, h) && Run(r, h).Resolved? && CursorOf(r.obj).Success?
  }

  /** Why processing stopped. */
  datatype Stop =
    | EndOfStream                          // every record was processed
    | StatusFailure(message: Option<string>) // a `Status` failure record rejected the watch
    | HandlerFailure(error: Error)         // a handler rejected, or the cursor could not be read after it
    | AbortedByHandler                     // a handler called `abort()`, which ends the stream

  /** What the record stops processing with, if anything. */
  function StopAt(r: WatchRecord, h: Handlers): (s: Stop)
    ensures s == EndOfStream ==> !IsStatusFailure(r)
    ensures s.AbortedByHandler? ==> Acks(r, h)
  {
    if IsStatusFailure(r) then StatusFailure(r.message)
    else if Dispatch(r, h).None? then EndOfStream
    else match Run(r, h)
      case Rejected(e) => HandlerFailure(e)
      case Resolved(callsAbort) =>
        match CursorOf(r.obj)
        case Failure(e) => HandlerFailure(e)
        case Success(_) => if callsAbort then AbortedByHandler else EndOfStream
  }

  /** The record ends processing. */
  predicate Terminal(r: WatchRecord, h: Handlers) {
    StopAt(r, h) != EndOfStream
  }

  /** What one record does: the handler run it causes, the cursor after it, and whether it stops processing. */
  datatype StepResult = StepResult(invoked: seq<Invocation>, cursor: Option<string>, stop: Stop)

  function Step(r: WatchRecord, h: Handlers, cursor: Option<string>): (s: StepResult)
    ensures |s.invoked| <= 1
    ensures s.invoked != [] <==> Handled(r, h)
    ensures s.cursor != cursor ==> Acks(r, h)
    ensures IsStatusFailure(r) ==> s.invoked == [] && s.cursor == cursor && s.stop == StatusFailure(r.message)
  {
    StepResult(
      if Handled(r, h) then [Invocation(Dispatch(r, h).value, r.obj)] else [],
      if Acks(r, h) then CursorOf(r.obj).value else cursor,
      StopAt(r, h))
  }

  // ---------------------------------------------------------------------------
  // A stream of records

  /** The handler runs, the cursor, why processing stopped, and how many records it took. */
  datatype Session = Session(invoked: seq<Invocation>, cursor: Option<string>, stop: Stop, consumed: nat)

  /** The records from the front: the `data` listener with the handler queue run to completion each time. */
  function Process(records: seq<WatchRecord>, h: Handlers, cursor: Option<string>): (s: Session)
    ensures s.consumed <= |records|
    ensures s.consumed == 0 <==> records == []
    ensures s.stop == EndOfStream ==> s.consumed == |records|
    ensures |s.invoked| <= s.consumed
    decreases |records|
  {
    if records == [] then Session([], cursor, EndOfStream, 0)
    else
      var step := Step(records[0], h, cursor);
      if step.stop != EndOfStream then Session(step.invoked, step.cursor, step.stop, 1)
      else
        var rest := Process(records[1..], h, step.cursor);
        Session(step.invoked + rest.invoked, rest.cursor, rest.stop, rest.consumed + 1)
  }

  /** The handler runs a run of records asks for, in record order. */
  function Dispatched(records: seq<WatchRecord>, h: Handlers): seq<Invocation>
    decreases |records|
  {
    if records == [] then []
    else
      (if Handled(records[0], h) then [Invocation(Dispatch(records[0], h).value, records[0].obj)] else [])
      + Dispatched(records[1..], h)
  }

  /** The cursor after a run of records: the resource version of the last acknowledged one, else the starting cursor. */
  function LastAcked(records: seq<WatchRecord>, h: Handlers, start: Option<string>): Option<string>
    decreases |records|
  {
    if records == [] then start
    else
      var last := records[|records| - 1];
      if Acks(last, h) then CursorOf(last.obj).value else LastAcked(records[..|records| - 1], h, start)
  }

  /**
   * Processing stops at the first terminal record and takes it; with no
   * terminal record it takes the whole stream and ends with it.
   */
  lemma {:induction false} ProcessStopsAtFirstTerminal(records: seq<WatchRecord>, h: Handlers, cursor: Option<string>)
    ensures var s := Process(records, h, cursor);
      && s.consumed <= |records|
      && (s.stop == EndOfStream <==> forall j :: 0 <= j < |records| ==> !Terminal(records[j], h))
      && (s.stop == EndOfStream ==> s.consumed == |records|)
      && (s.stop != EndOfStream ==>
            && 1 <= s.consumed
            && s.stop == StopAt(records[s.consumed - 1], h)
            && forall j :: 0 <= j < s.consumed - 1 ==> !Terminal(records[j], h))
    decreases |records|
  {
    if records != [] {
      var r := records[0];
      if !Terminal(r, h) {
        var next := Step(r, h, cursor).cursor;
        ProcessStopsAtFirstTerminal(records[1..], h, next);
        var rest := Process(records[1..], h, next);
        assert Process(records, h, cursor).stop == rest.stop;
        assert Process(records, h, cursor).consumed == rest.consumed + 1;
        forall j | 1 <= j < |records|
          ensures records[j] == records[1..][j - 1]
        {
        }
      }
    }
  }

  /** Every handler run is one the records ask for, in record order, up to where processing stopped. */
  lemma {:induction false} ProcessInvokesDispatched(records: seq<WatchRecord>, h: Handlers, cursor: Option<string>)
    ensures var s := Process(records, h, cursor);
      s.consumed <= |records| && s.invoked == Dispatched(records[..s.consumed], h)
    decreases |records|
  {
    if records != [] {
      var r := records[0];
      var s := Process(records, h, cursor);
      var next := Step(r, h, cursor).cursor;
      if !Terminal(r, h) {
        ProcessInvokesDispatched(records[1..], h, next);
        assert records[..s.consumed][1..] == records[1..][..s.consumed - 1];
      } else {
        assert records[..s.consumed] == [r];
        assert [r][1..] == [];
      }
    }
  }

  lemma {:induction false} LastAckedPrepend(r: WatchRecord, rest: seq<WatchRecord>, h: Handlers, start: Option<string>)
    ensures LastAcked([r] + rest, h, start) == LastAcked(rest, h, if Acks(r, h) then CursorOf(r.obj).value else start)
    decreases |rest|
  {
    if rest != [] {
      var front := rest[..|rest| - 1];
      LastAckedPrepend(r, front, h, start);
      assert ([r] + rest)[..|rest|] == [r] + front;
      assert ([r] + rest)[|rest|] == rest[|rest| - 1];
    } else {
      assert ([r] + rest)[..0] == [];
    }
  }

  /** The cursor only moves after a handler succeeds: it is the last acknowledged record's resource version, or the start. */
  lemma {:induction false} ProcessCursorIsLastAcked(records: seq<WatchRecord>, h: Handlers, cursor: Option<string>)
    ensures var s := Process(records, h, cursor);
      s.consumed <= |records| && s.cursor == LastAcked(records[..s.consumed], h, cursor)
    decreases |records|
  {
    if records != [] {
      var r := records[0];
      var s := Process(records, h, cursor);
      var next := Step(r, h, cursor).cursor;
      assert records[..s.consumed] == [r] + records[..s.consumed][1..];
      LastAckedPrepend(r, records[..s.consumed][1..], h, cursor);
      if !Terminal(r, h) {
        ProcessCursorIsLastAcked(records[1..], h, next);
        assert records[..s.consumed][1..] == records[1..][..s.consumed - 1];
      } else {
        assert records[..s.consumed][1..] == [];
      }
    }
  }

  // ---------------------------------------------------------------------------
  // Settling the watch

  /** Whether `watch` schedules another `watch` from a cursor when it resolves. */
  datatype Reconnect = NoReconnect | ReconnectFrom(resourceVersion: Option<string>)

  datatype WatchResult = WatchRejected(error: Error) | WatchResolved(reconnect: Reconnect)

  /** The processor's fields, and the requests `abort()` has cancelled so far. */
  datatype WatchState = WatchState(activeRequest: Option<RequestId>, aborted: bool, cancelled: seq<RequestId>)

  /** `abort()`: with an active request, mark the processor aborted, cancel the request and forget it; else nothing. */
  function AbortEffect(st: WatchState): (r: WatchState)
    ensures r.activeRequest.None?
    ensures st.activeRequest.None? ==> r == st
    ensures st.activeRequest.Some? ==> r.aborted && r.cancelled == st.cancelled + [st.activeRequest.value]
  {
    if st.activeRequest.Some? then WatchState(None, true, st.cancelled + [st.activeRequest.value]) else st
  }

  /** A second `abort()` is a no-op. */
  lemma AbortIsIdempotent(st: WatchState)
    ensures AbortEffect(AbortEffect(st)) == AbortEffect(st)
  {
  }

  /** The query of a watch request: always `watch=true`, and the cursor only when it is a non-empty string. */
  function WatchQuery(q: Query, resourceVersion: Option<string>): (r: Query)
    ensures "watch" in r && r["watch"] == Str("true")
    ensures "resourceVersion" in r <==> Truthy(resourceVersion) || "resourceVersion" in q
    ensures Truthy(resourceVersion) ==> r["resourceVersion"] == Str(resourceVersion.value)
    ensures forall k :: k in q && k != "watch" && k != "resourceVersion" ==> k in r && r[k] == q[k]
    ensures r.Keys <= q.Keys + {"watch", "resourceVersion"}
  {
    var watched := q["watch" := Str("true")];
    if Truthy(resourceVersion) then watched["resourceVersion" := Str(resourceVersion.value)] else watched
  }

  /** The stop ended with `abort()`: a handler failure (caught and aborted) or a handler's own call. */
  predicate AbortsRequest(stop: Stop) {
    stop.HandlerFailure? || stop.AbortedByHandler?
  }

  /**
   * The processor's state once the stream is over: no active request;
   * aborted if it was, or if processing stopped early; the request
   * cancelled when a handler failed or aborted.
   */
  function StateAfter(st: WatchState, stream: Stream, s: Session): (r: WatchState)
    ensures r.activeRequest.None?
    ensures r.aborted <==> st.aborted || s.stop != EndOfStream
  {
    WatchState(None, st.aborted || s.stop != EndOfStream,
               st.cancelled + (if AbortsRequest(s.stop) then [stream.request] else []))
  }

  /**
   * How the watch promise settles: a status failure rejects with the
   * record's message and a handler failure with its error; otherwise a
   * status of 400 or more rejects with `Request failed`, and the watch
   * resolves, reconnecting from the cursor exactly when not aborted.
   */
  function Settle(s: Session, status: Option<int>, aborted: bool): (r: WatchResult)
    ensures s.stop.StatusFailure? ==> r == WatchRejected(Thrown(s.stop.message))
    ensures s.stop.HandlerFailure? ==> r == WatchRejected(s.stop.error)
    ensures (s.stop == EndOfStream || s.stop == AbortedByHandler) && status.Some? && status.value >= 400 ==>
      r == WatchRejected(RequestError("Request failed", status, None))
    ensures r.WatchResolved? <==> (s.stop == EndOfStream || s.stop == AbortedByHandler) && !(status.Some? && status.value >= 400)
    ensures r.WatchResolved? ==> (r.reconnect == ReconnectFrom(s.cursor) <==> !aborted) && (aborted <==> r.reconnect == NoReconnect)
  {
    match s.stop
    case StatusFailure(m) => WatchRejected(Thrown(m))
    case HandlerFailure(e) => WatchRejected(e)
    case _ =>
      if status.Some? && status.value >= 400 then WatchRejected(RequestError("Request failed", status, None))
      else if aborted then WatchResolved(NoReconnect)
      else WatchResolved(ReconnectFrom(s.cursor))
  }

  /** Everything a `watch` call is observed by: its result, the request it sent, the handler runs, the processor's state after. */
  datatype WatchRun = WatchRun(result: WatchResult, sent: Option<OptionsValue>, invoked: seq<Invocation>, state: WatchState)

  /** The part of `watch` after the request is sent: process the records, then settle. */
  function StreamRun(sent: OptionsValue, h: Handlers, resourceVersion: Option<string>, stream: Stream, st: WatchState): (run: WatchRun)
    ensures run.sent == Some(sent)
    ensures run.invoked == Dispatched(stream.records[..Process(stream.records, h, resourceVersion).consumed], h)
    ensures run.state.activeRequest.None?
    ensures |st.cancelled| <= |run.state.cancelled| <= |st.cancelled| + 1 && run.state.cancelled[..|st.cancelled|] == st.cancelled
    ensures run.result.WatchResolved? ==> (run.result.reconnect.ReconnectFrom? <==> !run.state.aborted)
  {
    var s := Process(stream.records, h, resourceVersion);
    ProcessInvokesDispatched(stream.records, h, resourceVersion);
    var after := StateAfter(st, stream, s);
    WatchRun(Settle(s, stream.status, after.aborted), Some(sent), s.invoked, after)
  }

  /** The options `watch` builds before deriving credentials: GET of `server + path`, empty headers and query. */
  function WatchOptions(url: string): OptionsValue {
    NewOptions(url, "GET", Some(map[]), Some(map[]), None, None)
  }

  /**
   * The request `watch` sends, given the configuration `loadConfig` yields:
   * GET of `server + path` with the configuration's credentials, and the
   * watch query; or the error that keeps it from being sent.
   */
  function WatchRequest(cfg: Result<Loaded, Error>, path: string, resourceVersion: Option<string>, host: Host): (r: Result<OptionsValue, Error>)
    ensures cfg.Failure? ==> r == Failure(cfg.error)
    ensures r.Success? ==>
      && cfg.Success? && cfg.value.cluster.Some?
      && r.value.url == cfg.value.cluster.value.spec.server + path
      && r.value.httpMethod == "GET"
      && r.value.qs == Some(WatchQuery(map[], resourceVersion))
  {
    match cfg
    case Failure(e) => Failure(e)
    case Success(l) =>
      match ServerUrl(l, path)
      case Failure(e) => Failure(e)
      case Success(url) =>
        var u := Update(Success(l), WatchOptions(url), host);
        if u.error.Some? then Failure(u.error.value)
        else
          var o := u.options;
          Success(o.(qs := Some(WatchQuery(if o.qs.Some? then o.qs.value else map[], resourceVersion))))
  }

  /** `watch` given the configuration `loadConfig` yields. */
  function WatchOutcome(cfg: Result<Loaded, Error>, path: string, h: Handlers, resourceVersion: Option<string>,
                        host: Host, stream: Stream, st: WatchState): (run: WatchRun)
    ensures run.sent.None? <==> WatchRequest(cfg, path, resourceVersion, host).Failure?
    ensures run.sent.None? ==>
      run.result == WatchRejected(WatchRequest(cfg, path, resourceVersion, host).error) && run.invoked == [] && run.state == st
    ensures cfg.Failure? ==> run == WatchRun(WatchRejected(cfg.error), None, [], st)
    ensures run.sent.Some? ==> run.sent.value.httpMethod == "GET" && run.state.activeRequest.None?
  {
    match WatchRequest(cfg, path, resourceVersion, host)
    case Failure(e) => WatchRun(WatchRejected(e), None, [], st)
    case Success(sent) => StreamRun(sent, h, resourceVersion, stream, st)
  }

  /** What one record does to the processor: a status failure marks it aborted, a handler failure or abort calls `abort()`. */
  function RecordEffect(st: WatchState, stop: Stop): (r: WatchState)
    ensures stop == EndOfStream ==> r == st
    ensures st.aborted ==> r.aborted
    ensures st.activeRequest.Some? && stop != EndOfStream ==> r.aborted
    ensures !AbortsRequest(stop) ==> r.activeRequest == st.activeRequest && r.cancelled == st.cancelled
    ensures AbortsRequest(stop) ==> r.activeRequest.None? && |st.cancelled| <= |r.cancelled| && r.cancelled[..|st.cancelled|] == st.cancelled
  {
    if AbortsRequest(stop) then AbortEffect(st)
    else if stop.StatusFailure? then st.(aborted := true)
    else st
  }

  /** The stop's effect on the processor while the request is active, then clearing it, is the state after the stream. */
  lemma ClearedAfterStream(st: WatchState, stream: Stream, s: Session)
    ensures RecordEffect(st.(activeRequest := Some(stream.request)), s.stop).(activeRequest := None) == StateAfter(st, stream, s)
  {
  }

  // ---------------------------------------------------------------------------
  // What a watch promises

  /**
   * A failure before the request is sent (no configuration, no cluster,
   * an unreadable file) rejects and leaves the processor as it was; once
   * sent, the active request is always cleared, and the processor is
   * aborted exactly when it was or processing stopped early.
   */
  lemma WatchStateOnEveryExit(cfg: Result<Loaded, Error>, path: string, h: Handlers, resourceVersion: Option<string>,
                              host: Host, stream: Stream, st: WatchState)
    ensures var w := WatchOutcome(cfg, path, h, resourceVersion, host, stream, st);
      && (w.sent.None? ==> w.result.WatchRejected? && w.state == st && w.invoked == [])
      && (w.sent.Some? ==>
            && w.state.activeRequest.None?
            && (w.state.aborted <==> st.aborted || Process(stream.records, h, resourceVersion).stop != EndOfStream))
  {
  }

  /**
   * The watch asks to reconnect exactly when processing ran to the end of
   * the stream, the status is below 400, and the processor was never
   * aborted; it reconnects from the last acknowledged record's resource
   * version, or from the cursor it was given.
   */
  lemma ReconnectsFromLatestCursor(sent: OptionsValue, h: Handlers, resourceVersion: Option<string>, stream: Stream, st: WatchState)
    ensures var w := StreamRun(sent, h, resourceVersion, stream, st);
      && (w.result.WatchResolved? && w.result.reconnect.ReconnectFrom? <==>
            && (forall j :: 0 <= j < |stream.records| ==> !Terminal(stream.records[j], h))
            && !(stream.status.Some? && stream.status.value >= 400)
            && !st.aborted)
      && (w.result.WatchResolved? && w.result.reconnect.ReconnectFrom? ==>
            w.result.reconnect.resourceVersion == LastAcked(stream.records, h, resourceVersion))
  {
    ProcessStopsAtFirstTerminal(stream.records, h, resourceVersion);
    ProcessCursorIsLastAcked(stream.records, h, resourceVersion);
    var s := Process(stream.records, h, resourceVersion);
    if s.stop == EndOfStream {
      assert stream.records[..s.consumed] == stream.records;
    }
  }

  /** A processor once aborted never reconnects again: the flag is never reset. */
  lemma AbortedProcessorNeverReconnects(sent: OptionsValue, h: Handlers, resourceVersion: Option<string>, stream: Stream, st: WatchState)
    requires st.aborted
    ensures var w := StreamRun(sent, h, resourceVersion, stream, st);
      w.state.aborted && !(w.result.WatchResolved? && w.result.reconnect.ReconnectFrom?)
  {
  }

  /**
   * A handler that rejects ends the watch with its own error: processing
   * stops right there, the request is cancelled, the processor is aborted
   * and nothing reconnects.
   */
  lemma HandlerRejectionEndsWatch(sent: OptionsValue, h: Handlers, resourceVersion: Option<string>, stream: Stream, st: WatchState, i: nat)
    requires i < |stream.records|
    requires forall j :: 0 <= j < i ==> !Terminal(stream.records[j], h)
    requires Handled(stream.records[i], h) && Run(stream.records[i], h).Rejected?
    ensures var w := StreamRun(sent, h, resourceVersion, stream, st);
      && w.result == WatchRejected(Run(stream.records[i], h).error)
      && w.state.aborted
      && w.state.cancelled == st.cancelled + [stream.request]
      && w.invoked == Dispatched(stream.records[..i + 1], h)
  {
    ProcessStopsAtFirstTerminal(stream.records, h, resourceVersion);
    ProcessInvokesDispatched(stream.records, h, resourceVersion);
    var s := Process(stream.records, h, resourceVersion);
    assert Terminal(stream.records[i], h);
  }

  /**
   * A `Status` failure record, wherever it comes in the stream, rejects the
   * watch with its message exactly as sent, whatever the HTTP status, and
   * marks the processor aborted; no handler runs for it, and the handlers
   * of the records before it have run.
   */
  lemma StatusFailureRejectsWithMessage(sent: OptionsValue, h: Handlers, resourceVersion: Option<string>, stream: Stream, st: WatchState, i: nat)
    requires i < |stream.records|
    requires forall j :: 0 <= j < i ==> !Terminal(stream.records[j], h)
    requires IsStatusFailure(stream.records[i])
    ensures var w := StreamRun(sent, h, resourceVersion, stream, st);
      && w.result == WatchRejected(Thrown(stream.records[i].message))
      && w.state.aborted
      && w.state.cancelled == st.cancelled
      && w.invoked == Dispatched(stream.records[..i + 1], h)
      && !Handled(stream.records[i], h)
  {
    ProcessStopsAtFirstTerminal(stream.records, h, resourceVersion);
    ProcessInvokesDispatched(stream.records, h, resourceVersion);
    var s := Process(stream.records, h, resourceVersion);
    assert StopAt(stream.records[i], h) == StatusFailure(stream.records[i].message);
    assert Terminal(stream.records[i], h);
  }

  lemma StatusFailureIsLower()
    ensures Lower("Status") == "status" && Lower("Failure") == "failure"
  {
    var k := Lower("Status");
    assert k[0] == 's' && k[1] == 't' && k[2] == 'a' && k[3] == 't' && k[4] == 'u' && k[5] == 's';
    var f := Lower("Failure");
    assert f[0] == 'f' && f[1] == 'a' && f[2] == 'i' && f[3] == 'l' && f[4] == 'u' && f[5] == 'r' && f[6] == 'e';
  }

  /** `Status` and `Failure` in any letter case: an expired cursor of `-1` rejects with the server's message verbatim. */
  lemma ExpiredCursorExample(sent: OptionsValue, h: Handlers, request: RequestId, status: Option<int>, st: WatchState)
    ensures
      var message := "resourceVersion: Invalid value: \"-1\": strconv.ParseUint: parsing \"-1\": invalid syntax";
      var record := WatchRecord(Some("Status"), Some("Failure"), Some(message), None, None);
      StreamRun(sent, h, Some("-1"), Stream(request, status, [record]), st).result == WatchRejected(Thrown(Some(message)))
  {
    var message := "resourceVersion: Invalid value: \"-1\": strconv.ParseUint: parsing \"-1\": invalid syntax";
    var record := WatchRecord(Some("Status"), Some("Failure"), Some(message), None, None);
    StatusFailureIsLower();
    assert IsStatusFailure(record);
  }

  /** The handlers of the add / modify / delete scenario: the deleted handler calls `abort()`. */
  function AbortOnDelete(): Handlers {
    Handlers(Some(_ => Resolved(false)), Some(_ => Resolved(false)), Some(_ => Resolved(true)))
  }

  /** An event record carrying an object, as the API server sends for a change. */
  function Event(eventType: string, obj: WatchObject): WatchRecord {
    WatchRecord(None, None, None, Some(eventType), Some(obj))
  }

  lemma AddedIsLower()
    ensures Lower("ADDED") == "added"
  {
    var l := Lower("ADDED");
    assert l[0] == 'a' && l[1] == 'd' && l[2] == 'd' && l[3] == 'e' && l[4] == 'd';
  }

  lemma ModifiedIsLower()
    ensures Lower("MODIFIED") == "modified"
  {
    var l := Lower("MODIFIED");
    assert l[0] == 'm' && l[1] == 'o' && l[2] == 'd' && l[3] == 'i';
    assert l[4] == 'f' && l[5] == 'i' && l[6] == 'e' && l[7] == 'd';
  }

  lemma DeletedIsLower()
    ensures Lower("DELETED") == "deleted"
  {
    var l := Lower("DELETED");
    assert l[0] == 'd' && l[1] == 'e' && l[2] == 'l' && l[3] == 'e';
    assert l[4] == 't' && l[5] == 'e' && l[6] == 'd';
  }

  /** The upper-case event types the API server sends name the three handlers. */
  lemma UpperCaseEventTypes()
    ensures ParseEventType(Some("ADDED")) == Some(Added)
    ensures ParseEventType(Some("MODIFIED")) == Some(Modified)
    ensures ParseEventType(Some("DELETED")) == Some(Deleted)
  {
    AddedIsLower();
    ModifiedIsLower();
    DeletedIsLower();
  }

  lemma AbortOnDeleteStep(eventType: string, e: EventType, obj: WatchObject, cursor: Option<string>)
    requires ParseEventType(Some(eventType)) == Some(e)
    requires obj.metadata.Some?
    ensures Step(Event(eventType, obj), AbortOnDelete(), cursor)
      == StepResult([Invocation(e, Some(obj))], obj.metadata.value.resourceVersion, if e == Deleted then AbortedByHandler else EndOfStream)
  {
    assert !IsStatusFailure(Event(eventType, obj));
  }

  /** The records of the scenario are processed to the end: three handler runs, the last of which aborts. */
  lemma AbortOnDeleteSession(a: WatchObject, m: WatchObject, d: WatchObject)
    requires a.metadata.Some? && m.metadata.Some? && d.metadata.Some?
    ensures Process([Event("ADDED", a), Event("MODIFIED", m), Event("DELETED", d)], AbortOnDelete(), None)
      == Session([Invocation(Added, Some(a)), Invocation(Modified, Some(m)), Invocation(Deleted, Some(d))],
                 d.metadata.value.resourceVersion, AbortedByHandler, 3)
  {
    var h := AbortOnDelete();
    var records := [Event("ADDED", a), Event("MODIFIED", m), Event("DELETED", d)];
    UpperCaseEventTypes();
    AbortOnDeleteStep("ADDED", Added, a, None);
    AbortOnDeleteStep("MODIFIED", Modified, m, a.metadata.value.resourceVersion);
    AbortOnDeleteStep("DELETED", Deleted, d, m.metadata.value.resourceVersion);
    assert records[1..] == [records[1], records[2]] && records[1..][1..] == [records[2]];
    var last := Process(records[1..][1..], h, m.metadata.value.resourceVersion);
    assert last == Session([Invocation(Deleted, Some(d))], d.metadata.value.resourceVersion, AbortedByHandler, 1);
    var middle := Process(records[1..], h, a.metadata.value.resourceVersion);
    assert middle == Session([Invocation(Modified, Some(m))] + last.invoked, last.cursor, AbortedByHandler, 2);
  }

  /**
   * Added, then modified, then deleted, where the deleted handler aborts:
   * all three handlers run in order, the cursor ends at the deleted
   * object's version, and the watch resolves without reconnecting.
   */
  lemma AddModifyDeleteAbortExample(sent: OptionsValue, request: RequestId, a: WatchObject, m: WatchObject, d: WatchObject, st: WatchState)
    requires a.metadata.Some? && m.metadata.Some? && d.metadata.Some?
    ensures
      var records := [Event("ADDED", a), Event("MODIFIED", m), Event("DELETED", d)];
      var w := StreamRun(sent, AbortOnDelete(), None, Stream(request, Some(200), records), st);
      && w.invoked == [Invocation(Added, Some(a)), Invocation(Modified, Some(m)), Invocation(Deleted, Some(d))]
      && w.result == WatchResolved(NoReconnect)
      && w.state == WatchState(None, true, st.cancelled + [request])
  {
    AbortOnDeleteSession(a, m, d);
  }

  /** The first `consumed` records, which made the handler runs `invoked`, followed by the session of the rest. */
  function Joined(invoked: seq<Invocation>, consumed: nat, rest: Session): Session {
    Session(invoked + rest.invoked, rest.cursor, rest.stop, consumed + rest.consumed)
  }

  /** Handling one more record: it either stops processing, or its runs join those before the rest's. */
  lemma JoinedStep(invoked: seq<Invocation>, consumed: nat, rest: seq<WatchRecord>, h: Handlers, cursor: Option<string>)
    requires rest != []
    ensures var step := Step(rest[0], h, cursor);
      Joined(invoked, consumed, Process(rest, h, cursor))
        == if step.stop != EndOfStream then Session(invoked + step.invoked, step.cursor, step.stop, consumed + 1)
           else Joined(invoked + step.invoked, consumed + 1, Process(rest[1..], h, step.cursor))
  {
    var step := Step(rest[0], h, cursor);
    if step.stop == EndOfStream {
      var after := Process(rest[1..], h, step.cursor);
      assert invoked + (step.invoked + after.invoked) == (invoked + step.invoked) + after.invoked;
    }
  }

  /** One more record handled from the front: the loop's account of the stream either stops there or moves past it. */
  lemma ProcessAdvances(records: seq<WatchRecord>, h: Handlers, cursor0: Option<string>, invoked: seq<Invocation>, i: nat, cursor: Option<string>)
    requires i < |records|
    requires Process(records, h, cursor0) == Joined(invoked, i, Process(records[i..], h, cursor))
    ensures var step := Step(records[i], h, cursor);
      && (step.stop == EndOfStream ==>
            Process(records, h, cursor0) == Joined(invoked + step.invoked, i + 1, Process(records[i + 1..], h, step.cursor)))
      && (step.stop != EndOfStream ==>
            Process(records, h, cursor0) == Session(invoked + step.invoked, step.cursor, step.stop, i + 1))
  {
    var rest := records[i..];
    assert rest[0] == records[i] && rest[1..] == records[i + 1..];
    JoinedStep(invoked, i, rest, h, cursor);
  }

  /** The loop's account once every record was handled. */
  lemma ProcessDone(records: seq<WatchRecord>, h: Handlers, cursor0: Option<string>, invoked: seq<Invocation>, cursor: Option<string>)
    requires Process(records, h, cursor0) == Joined(invoked, |records|, Process(records[|records|..], h, cursor))
    ensures Process(records, h, cursor0) == Session(invoked, cursor, EndOfStream, |records|)
  {
    assert records[|records|..] == [];
  }

  /** The processor's fields, a loop that handles the stream's records, and `abort()`. */
  class WatchRequestProcessor {
    /** The configuration cache every processor inherits. */
    const base: BaseRequestProcessor
    var activeRequest: Option<RequestId>
    var aborted: bool
    /** Every request `abort()` has cancelled, oldest first. */
    var cancelled: seq<RequestId>

    function State(): WatchState
      reads this
    {
      WatchState(activeRequest, aborted, cancelled)
    }

    constructor()
      ensures fresh(base) && base.kubeConfig == null
      ensures State() == WatchState(None, false, [])
    {
      base := new BaseRequestProcessor();
      activeRequest := None;
      aborted := false;
      cancelled := [];
    }

    /** `abort()`. */
    method Abort()
      modifies this
      ensures State() == AbortEffect(old(State()))
    {
      if activeRequest.Some? {
        aborted := true;
        cancelled := cancelled + [activeRequest.value];
        activeRequest := None;
      }
    }

    /**
     * `watch(path, handlers, resourceVersion)` over one connection: the
     * result, the request sent, the handler runs in order, and the state
     * after are those `WatchOutcome` describes.
     */
    method Watch(path: string, handlers: Handlers, resourceVersion: Option<string>, host: Host, stream: Stream)
      returns (r: WatchResult, sent: Option<OptionsValue>, invoked: seq<Invocation>)
      modifies this, base
      ensures old(base.kubeConfig) != null ==> base.kubeConfig == old(base.kubeConfig)
      ensures base.Cached() == CachedAfter(old(base.Cached()), host)
      ensures WatchRun(r, sent, invoked, State())
        == WatchOutcome(Configuration(old(base.Cached()), host), path, handlers, resourceVersion, host, stream, old(State()))
    {
      var request := BuildRequest(path, resourceVersion, host);
      if request.Failure? {
        return WatchRejected(request.error), None, [];
      }
      sent := Some(request.value);

      ghost var before := State();
      activeRequest := None;
      activeRequest := Some(stream.request);
      assert State() == before.(activeRequest := Some(stream.request));
      var session := HandleRecords(stream, handlers, resourceVersion);
      invoked := session.invoked;
      activeRequest := None;
      ClearedAfterStream(before, stream, session);
      r := Settled(session, stream.status);
    }

    /** How the promise settles once the stream is over, given whether the processor is now aborted. */
    method Settled(session: Session, status: Option<int>) returns (r: WatchResult)
      ensures r == Settle(session, status, aborted)
    {
      match session.stop
      case StatusFailure(m) =>
        r := WatchRejected(Thrown(m));
      case HandlerFailure(e) =>
        r := WatchRejected(e);
      case _ =>
        if status.Some? && status.value >= 400 {
          r := WatchRejected(RequestError("Request failed", status, None));
        } else if !aborted {
          r := WatchResolved(ReconnectFrom(session.cursor));
        } else {
          r := WatchResolved(NoReconnect);
        }
    }

    /** The request `watch` sends: the configured GET, with `watch=true` and the cursor when it is set. */
    method BuildRequest(path: string, resourceVersion: Option<string>, host: Host) returns (request: Result<OptionsValue, Error>)
      modifies base
      ensures old(base.kubeConfig) != null ==> base.kubeConfig == old(base.kubeConfig)
      ensures base.Cached() == CachedAfter(old(base.Cached()), host)
      ensures request == WatchRequest(Configuration(old(base.Cached()), host), path, resourceVersion, host)
    {
      var kc := base.LoadConfig(host);
      if kc.Failure? {
        return Failure(kc.error);
      }
      if kc.value.cluster.None? {
        return Failure(UNDEFINED_CLUSTER);
      }
      var options := new RequestOptions(WatchOptions(kc.value.cluster.value.spec.server + path));
      var err := base.UpdateRequestOptions(options, host);
      if err.Some? {
        return Failure(err.value);
      }
      var qs := if options.qs.Some? then options.qs.value else map[];
      qs := qs["watch" := Str("true")];
      if Truthy(resourceVersion) {
        qs := qs["resourceVersion" := Str(resourceVersion.value)];
      }
      options.qs := Some(qs);
      request := Success(options.Value());
    }

    /**
     * The `data` listener for one record: a status failure marks the
     * processor aborted; a record with a handler runs it, and a rejection
     * (or an object without metadata) calls `abort()`; a success moves the
     * cursor, and the handler may itself have called `abort()`.
     */
    method HandleRecord(record: WatchRecord, handlers: Handlers, cursor: Option<string>) returns (step: StepResult)
      modifies this
      ensures step == Step(record, handlers, cursor)
      ensures State() == RecordEffect(old(State()), step.stop)
    {
      if IsStatusFailure(record) {
        aborted := true;
        return StepResult([], cursor, StatusFailure(record.message));
      }
      var eventType := ParseEventType(record.eventType);
      if eventType.None? || HandlerFor(handlers, eventType.value).None? {
        return StepResult([], cursor, EndOfStream);
      }
      var handler := HandlerFor(handlers, eventType.value).value;
      var invoked := [Invocation(eventType.value, record.obj)];
      var outcome := handler(record.obj);
      if outcome.Rejected? {
        Abort();
        return StepResult(invoked, cursor, HandlerFailure(outcome.error));
      }
      if outcome.callsAbort {
        Abort();
      }
      var next := CursorOf(record.obj);
      if next.Failure? {
        Abort();
        return StepResult(invoked, cursor, HandlerFailure(next.error));
      }
      step := StepResult(invoked, next.value, if outcome.callsAbort then AbortedByHandler else EndOfStream);
    }

    /** The records one after another, until one stops processing or the stream ends. */
    method HandleRecords(stream: Stream, handlers: Handlers, resourceVersion: Option<string>) returns (session: Session)
      requires activeRequest == Some(stream.request)
      modifies this
      ensures session == Process(stream.records, handlers, resourceVersion)
      ensures State() == RecordEffect(old(State()), session.stop)
    {
      var records := stream.records;
      var cursor := resourceVersion;
      var invoked: seq<Invocation> := [];
      var stop := EndOfStream;
      var i := 0;
      while i < |records| && stop == EndOfStream
        invariant 0 <= i <= |records|
        invariant stop == EndOfStream ==> State() == old(State())
        invariant stop == EndOfStream ==> Process(records, handlers, resourceVersion) == Joined(invoked, i, Process(records[i..], handlers, cursor))
        invariant stop != EndOfStream ==> Process(records, handlers, resourceVersion) == Session(invoked, cursor, stop, i)
        invariant stop != EndOfStream ==> State() == RecordEffect(old(State()), stop)
        decreases |records| - i
      {
        var step := HandleRecord(records[i], handlers, cursor);
        ProcessAdvances(records, handlers, resourceVersion, invoked, i, cursor);
        invoked := invoked + step.invoked;
        cursor := step.cursor;
        stop := step.stop;
        i := i + 1;
      }
      if stop == EndOfStream {
        ProcessDone(records, handlers, resourceVersion, invoked, cursor);
      }
      session := Session(invoked, cursor, stop, i);
    }
  }
}
