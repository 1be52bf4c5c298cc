/**
 * The options record a request is sent with (the `request` library's
 * Options), the query parameters it carries, and the transport's reply.
 */
module Requests {
  import opened Wrappers
  import opened Interfaces

  /** A query parameter value: a number, a string, or `undefined` (left out of the URL). */
  datatype QueryValue = Num(n: int) | Str(s: string) | Undefined

  type Query = map<string, QueryValue>

  /** `if (v)` for a query parameter value. */
  predicate TruthyQueryValue(v: QueryValue) {
    match v
    case Num(n) => n != 0
    case Str(s) => s != ""
    case Undefined => false
  }

  /** TLS material: decoded from inline base64 data, or the contents of a file. */
  datatype Pem = Base64Decoded(data: string) | FileContents(contents: string)

  datatype Credentials = Credentials(username: string, password: string)

  /** A request body: a JSON value, or the operations of an RFC 6902 JSON Patch. */
  datatype Payload = JsonBody(json: Json) | PatchBody(ops: seq<PatchBodyItem>)

  /** A snapshot of every field of an options record. */
  datatype OptionsValue = OptionsValue(
    url: string,
    httpMethod: string,
    qs: Option<Query>,
    headers: Option<map<string, string>>,
    body: Option<Payload>,
    json: Option<bool>,
    ca: Option<Pem>,
    cert: Option<Pem>,
    key: Option<Pem>,
    rejectUnauthorized: Option<bool>,
    auth: Option<Credentials>)

  /** An options record as the processors first build it: no TLS or credential fields yet. */
  function NewOptions(url: string, httpMethod: string, qs: Option<Query>, headers: Option<map<string, string>>,
                      body: Option<Payload>, json: Option<bool>): OptionsValue {
    OptionsValue(url, httpMethod, qs, headers, body, json, None, None, None, None, None)
  }

  /** The mutable options object that is built, updated in place, and handed to the transport. */
  class RequestOptions {
    var url: string
    var httpMethod: string
    var qs: Option<Query>
    var headers: Option<map<string, string>>
    var body: Option<Payload>
    var json: Option<bool>
    var ca: Option<Pem>
    var cert: Option<Pem>
    var key: Option<Pem>
    var rejectUnauthorized: Option<bool>
    var auth: Option<Credentials>

    constructor (v: OptionsValue)
      ensures Value() == v
    {
      url, httpMethod, qs, headers, body, json := v.url, v.httpMethod, v.qs, v.headers, v.body, v.json;
      ca, cert, key, rejectUnauthorized, auth := v.ca, v.cert, v.key, v.rejectUnauthorized, v.auth;
    }

    function Value(): OptionsValue
      reads this
    {
      OptionsValue(url, httpMethod, qs, headers, body, json, ca, cert, key, rejectUnauthorized, auth)
    }
  }

  /** What the transport answers a request with. */
  datatype Reply =
    | TransportFailure(error: Error)
    | Response(statusCode: int, statusMessage: string, body: Body)

  /** What a request ends with, and the options it was sent with (none when it failed before sending). */
  datatype Outcome = Outcome(result: Result<Body, Error>, sent: Option<OptionsValue>)

  predicate IsSuccessStatus(code: int) {
    200 <= code <= 299
  }
}
