/** The `FetchAPI` client: a header map kept across calls, and `request`,
    which turns the outcome of one `fetch` into a `{data, error, status}`
    triple without ever throwing.

    `fetch` itself is not modelled: its outcome is an input to `Request`,
    so that `Request` is a total function of the client state, the
    storage, the call and that outcome. */
module FetchApi {
  import opened Wrappers
  import opened Strings
  import opened Js
  import opened HeaderMaps
  import LS = LocalStorage

  const ContentType := "Content-Type"
  const Authorization := "Authorization"
  const JsonMediaType := "application/json"
  /** The storage key of the client's own token. The auth store's tokens live under other keys. */
  const AuthTokenKey := "authToken"
  const DefaultBaseURL := "http://localhost:3000"
  const NetworkErrorMessage := "Network error"

  datatype Client = Client(baseURL: string, defaultHeaders: Headers)

  /** `new FetchAPI(baseURL, defaultHeaders)`: a JSON content type, which the caller's defaults may override. */
  function NewClient(baseURL: string, defaults: Headers): (c: Client)
    ensures c.baseURL == baseURL
    ensures c.defaultHeaders.Keys == defaults.Keys + {ContentType}
    ensures forall k :: k in defaults ==> c.defaultHeaders[k] == defaults[k]
    ensures ContentType !in defaults ==> c.defaultHeaders[ContentType] == JsonMediaType
  {
    Client(baseURL, Merge(map[ContentType := JsonMediaType], defaults))
  }

  /** `setAuthToken(token)`: a truthy token installs `Bearer <token>`, anything
      else (null, undefined, "") removes the header; no other header moves. */
  function SetAuthToken(c: Client, token: Option<Json>): (r: Client)
    ensures r.baseURL == c.baseURL
    ensures AgreeExcept(c.defaultHeaders, r.defaultHeaders, Authorization)
    ensures TruthyValue(token) ==>
              && Authorization in r.defaultHeaders
              && r.defaultHeaders[Authorization] == "Bearer " + ToJsString(token.value)
    ensures !TruthyValue(token) ==> Authorization !in r.defaultHeaders
  {
    if TruthyValue(token) then
      c.(defaultHeaders := Merge(c.defaultHeaders, map[Authorization := "Bearer " + ToJsString(token.value)]))
    else
      c.(defaultHeaders := Without(c.defaultHeaders, Authorization))
  }

  /** A `string | null` argument, as the typed call sites pass it. */
  function StringToken(t: Option<string>): Option<Json> {
    if t.Some? then Some(JStr(t.value)) else None
  }

  /** `setBaseURL(url)`. */
  function SetBaseURL(c: Client, url: string): (r: Client)
    ensures r.baseURL == url && r.defaultHeaders == c.defaultHeaders
  {
    c.(baseURL := url)
  }

  /** `setDefaultHeaders(headers)`: the given headers override the current ones key by key. */
  function SetDefaultHeaders(c: Client, headers: Headers): (r: Client)
    ensures r.baseURL == c.baseURL
    ensures r.defaultHeaders.Keys == c.defaultHeaders.Keys + headers.Keys
    ensures forall k :: k in headers ==> r.defaultHeaders[k] == headers[k]
    ensures forall k :: k in c.defaultHeaders && k !in headers ==> r.defaultHeaders[k] == c.defaultHeaders[k]
  {
    c.(defaultHeaders := Merge(c.defaultHeaders, headers))
  }

  /** The module-level singleton: `REACT_APP_API_URL` or the local default as
      base URL, then the stored `authToken`, if truthy, as bearer token. */
  function Boot(apiUrl: Option<string>, storage: LS.Storage): (c: Client)
    ensures c.baseURL == if apiUrl.Some? && apiUrl.value != "" then apiUrl.value else DefaultBaseURL
    ensures ContentType in c.defaultHeaders && c.defaultHeaders[ContentType] == JsonMediaType
    ensures Authorization in c.defaultHeaders <==> AuthTokenKey in storage && storage[AuthTokenKey] != ""
    ensures Authorization in c.defaultHeaders ==> c.defaultHeaders[Authorization] == "Bearer " + storage[AuthTokenKey]
    ensures c.defaultHeaders.Keys <= {ContentType, Authorization}
  {
    var url := if apiUrl.Some? && apiUrl.value != "" then apiUrl.value else DefaultBaseURL;
    var c := NewClient(url, map[]);
    var token := LS.GetItem(storage, AuthTokenKey);
    if token.Some? && token.value != "" then SetAuthToken(c, StringToken(token)) else c
  }

  // ---------------------------------------------------------------------------
  // The call

  /** What a call sends as `body`: `JSON.stringify(value)` or a `FormData`. */
  datatype RequestBody = Serialized(value: Json) | FormData(parts: seq<(string, string)>)

  /** The part of `RequestInit` the client reads (`verb` is its `method`); absent headers are the empty map. */
  datatype Options = Options(verb: Option<string>, headers: Headers, body: Option<RequestBody>)

  const NoOptions := Options(None, map[], None)

  /** What is handed to `fetch`. */
  datatype Outgoing = Outgoing(url: string, verb: Option<string>, headers: Headers, body: Option<RequestBody>)

  /** A response object is a JSON object whose `message` member, when present, is a string. */
  predicate MessageIsString(v: Json) {
    v.JObj? && "message" in v.fields ==> v.fields["message"].JStr?
  }

  type ResponseJson = v: Json | MessageIsString(v) witness JNull

  /** What `JSON.parse` makes of a body: a value, or a SyntaxError with its message. */
  datatype Parse = Value(json: ResponseJson) | SyntaxError(message: string)

  /** A response body: its text, as `response.text()` reads it, and its parse, as `response.json()` reads it. */
  datatype Body = Body(text: string, parsed: Parse)

  datatype Response = Response(status: int, contentType: Option<string>, body: Body)

  /** The outcome of `fetch`: a response, or a rejection carrying the thrown
      Error's message (None when the thrown value is not an Error). */
  datatype FetchOutcome = Responded(response: Response) | Threw(message: Option<string>)

  /** The `data` a call returns: a parsed JSON value or a text body. */
  datatype Data = Parsed(json: ResponseJson) | Text(text: string)

  /** The `{data, error, status}` triple; None stands for `null`. */
  datatype TransportResult = TransportResult(data: Option<Data>, error: Option<string>, status: int)

  /** One call: what was sent, what came back, and the client state and storage afterwards. */
  datatype Exchange = Exchange(sent: Outgoing, result: TransportResult, client: Client, storage: LS.Storage)

  /** `response.ok`. */
  predicate IsOk(status: int) { 200 <= status <= 299 }

  /** The `content-type` header contains `application/json`. */
  predicate DeclaresJson(r: Response) {
    r.contentType.Some? && Contains(r.contentType.value, JsonMediaType)
  }

  /** `data` as JavaScript truthiness sees it. */
  predicate DataTruthy(d: Option<Data>) {
    d.Some? && match d.value
               case Parsed(v) => Truthy(v)
               case Text(s) => s != ""
  }

  datatype Read = Read(data: Option<Data>) | ReadFailed(message: string)

  /** Reading the body: JSON when declared (checked first), otherwise nothing
      for a 204, otherwise text. A JSON `null` is the `null` data. */
  function ReadBody(r: Response): Read {
    if DeclaresJson(r) then
      match r.body.parsed
      case Value(v) => Read(if v == JNull then None else Some(Parsed(v)))
      case SyntaxError(m) => ReadFailed(m)
    else if r.status != 204 then Read(Some(Text(r.body.text)))
    else Read(None)
  }

  /** The message a failed response's body supplies, if any: the `message`
      member of an object, else a non-empty string. */
  function BodyMessage(d: Option<Data>): Option<string> {
    if !DataTruthy(d) then None
    else match d.value
      case Parsed(v) =>
        if v.JObj? && "message" in v.fields then Some(v.fields["message"].s)
        else if v.JStr? then Some(v.s)
        else None
      case Text(s) => Some(s)
  }

  /** The fixed message for a status whose body supplied none. */
  function StatusMessage(status: int): string {
    if status == 400 then "Bad Request"
    else if status == 401 then "Unauthorized"
    else if status == 403 then "Forbidden"
    else if status == 404 then "Not Found"
    else if status == 500 then "Internal Server Error"
    else "HTTP Error: " + IntToString(status)
  }

  /** The response is a 401 whose body supplied no message, the only case
      that reaches the token-clearing branch. */
  predicate TearsDown(outcome: FetchOutcome) {
    && outcome.Responded?
    && outcome.response.status == 401
    && ReadBody(outcome.response).Read?
    && BodyMessage(ReadBody(outcome.response).data).None?
  }

  datatype Settled = Settled(result: TransportResult, client: Client, storage: LS.Storage)

  /** Everything after `fetch` returns or throws. */
  function Settle(c: Client, s: LS.Storage, outcome: FetchOutcome): Settled {
    match outcome
    case Threw(m) => Settled(TransportResult(None, Some(m.GetOr(NetworkErrorMessage)), 0), c, s)
    case Responded(r) =>
      match ReadBody(r)
      case ReadFailed(m) => Settled(TransportResult(None, Some(m), 0), c, s)
      case Read(data) =>
        if IsOk(r.status) then Settled(TransportResult(data, None, r.status), c, s)
        else
          var fromBody := BodyMessage(data);
          if fromBody.Some? then Settled(TransportResult(None, fromBody, r.status), c, s)
          else if r.status == 401 then
            Settled(TransportResult(None, Some(StatusMessage(401)), 401),
                    SetAuthToken(c, None), LS.RemoveItem(s, AuthTokenKey))
          else Settled(TransportResult(None, Some(StatusMessage(r.status)), r.status), c, s)
  }

  /** `request(endpoint, options)`. */
  function Request(c: Client, s: LS.Storage, endpoint: string, opts: Options, outcome: FetchOutcome): (e: Exchange)
    // what is sent: the per-call headers override the defaults key by key
    ensures e.sent.url == c.baseURL + endpoint
    ensures e.sent.verb == opts.verb && e.sent.body == opts.body
    ensures e.sent.headers.Keys == c.defaultHeaders.Keys + opts.headers.Keys
    ensures forall k :: k in opts.headers ==> e.sent.headers[k] == opts.headers[k]
    ensures forall k :: k in c.defaultHeaders && k !in opts.headers ==> e.sent.headers[k] == c.defaultHeaders[k]
    // the triple: no error exactly on a readable 2xx response, and then the body is the data
    ensures e.result.error.None? <==>
              outcome.Responded? && ReadBody(outcome.response).Read? && IsOk(outcome.response.status)
    ensures e.result.error.None? ==>
              e.result.data == ReadBody(outcome.response).data && e.result.status == outcome.response.status
    ensures e.result.error.Some? ==> e.result.data.None?
    ensures outcome.Threw? ==>
              e.result == TransportResult(None, Some(outcome.message.GetOr(NetworkErrorMessage)), 0)
    ensures outcome.Responded? && ReadBody(outcome.response).Read? ==> e.result.status == outcome.response.status
    // the only state change is the 401 teardown, which touches nothing but the client token
    ensures e.client.baseURL == c.baseURL
    ensures AgreeExcept(c.defaultHeaders, e.client.defaultHeaders, Authorization)
    ensures LS.AgreeOutside(s, e.storage, {AuthTokenKey})
    ensures TearsDown(outcome) ==>
              && e.result == TransportResult(None, Some("Unauthorized"), 401)
              && Authorization !in e.client.defaultHeaders
              && LS.GetItem(e.storage, AuthTokenKey).None?
    ensures !TearsDown(outcome) ==> e.client == c && e.storage == s
  {
    var settled := Settle(c, s, outcome);
    Exchange(Outgoing(c.baseURL + endpoint, opts.verb, Merge(c.defaultHeaders, opts.headers), opts.body),
             settled.result, settled.client, settled.storage)
  }

  // ---------------------------------------------------------------------------
  // Method shortcuts: each forces its method over whatever the options say

  function Get(c: Client, s: LS.Storage, endpoint: string, opts: Options, outcome: FetchOutcome): (e: Exchange)
    ensures e.sent.verb == Some("GET") && e.sent.body == opts.body
    ensures e == Request(c, s, endpoint, opts.(verb := Some("GET")), outcome)
  {
    Request(c, s, endpoint, opts.(verb := Some("GET")), outcome)
  }

  function Post(c: Client, s: LS.Storage, endpoint: string, body: Json, opts: Options, outcome: FetchOutcome): (e: Exchange)
    ensures e.sent.verb == Some("POST") && e.sent.body == Some(Serialized(body))
    ensures e == Request(c, s, endpoint, opts.(verb := Some("POST"), body := Some(Serialized(body))), outcome)
  {
    Request(c, s, endpoint, opts.(verb := Some("POST"), body := Some(Serialized(body))), outcome)
  }

  function Put(c: Client, s: LS.Storage, endpoint: string, body: Json, opts: Options, outcome: FetchOutcome): (e: Exchange)
    ensures e.sent.verb == Some("PUT") && e.sent.body == Some(Serialized(body))
    ensures e == Request(c, s, endpoint, opts.(verb := Some("PUT"), body := Some(Serialized(body))), outcome)
  {
    Request(c, s, endpoint, opts.(verb := Some("PUT"), body := Some(Serialized(body))), outcome)
  }

  function Patch(c: Client, s: LS.Storage, endpoint: string, body: Json, opts: Options, outcome: FetchOutcome): (e: Exchange)
    ensures e.sent.verb == Some("PATCH") && e.sent.body == Some(Serialized(body))
    ensures e == Request(c, s, endpoint, opts.(verb := Some("PATCH"), body := Some(Serialized(body))), outcome)
  {
    Request(c, s, endpoint, opts.(verb := Some("PATCH"), body := Some(Serialized(body))), outcome)
  }

  function Delete(c: Client, s: LS.Storage, endpoint: string, opts: Options, outcome: FetchOutcome): (e: Exchange)
    ensures e.sent.verb == Some("DELETE") && e.sent.body == opts.body
    ensures e == Request(c, s, endpoint, opts.(verb := Some("DELETE")), outcome)
  {
    Request(c, s, endpoint, opts.(verb := Some("DELETE")), outcome)
  }

  /** `upload(endpoint, formData, options)` as written: the defaults without
      Content-Type replace the caller's headers, and the request spreads the
      defaults back over them, so exactly the default headers are sent,
      Content-Type included. */
  function Upload(c: Client, s: LS.Storage, endpoint: string, form: seq<(string, string)>, opts: Options,
                  outcome: FetchOutcome): (e: Exchange)
    ensures e.sent.headers == c.defaultHeaders
    ensures e.sent.verb == Some("POST") && e.sent.body == Some(FormData(form))
    ensures e.sent.url == c.baseURL + endpoint
    ensures e.result == Request(c, s, endpoint, opts, outcome).result
    // the state changes exactly as for any other request: only by the 401 teardown
    ensures e.client.baseURL == c.baseURL
    ensures AgreeExcept(c.defaultHeaders, e.client.defaultHeaders, Authorization)
    ensures LS.AgreeOutside(s, e.storage, {AuthTokenKey})
    ensures TearsDown(outcome) ==>
              && e.result == TransportResult(None, Some("Unauthorized"), 401)
              && Authorization !in e.client.defaultHeaders
              && LS.GetItem(e.storage, AuthTokenKey).None?
    ensures !TearsDown(outcome) ==> e.client == c && e.storage == s
  {
    var headers := Without(c.defaultHeaders, ContentType);
    MergeSubmap(c.defaultHeaders, headers);
    Request(c, s, endpoint, Options(Some("POST"), headers, Some(FormData(form))), outcome)
  }

  /** The upload the method's own comment describes: the defaults are sent
      without Content-Type, so that the browser supplies the multipart type
      and its boundary. Everything after `fetch` is as for any request. */
  function UploadCorrected(c: Client, s: LS.Storage, endpoint: string, form: seq<(string, string)>, opts: Options,
                           outcome: FetchOutcome): (e: Exchange)
    ensures ContentType !in e.sent.headers
    ensures e.sent.headers.Keys == c.defaultHeaders.Keys - {ContentType}
    ensures forall k :: k in e.sent.headers ==> e.sent.headers[k] == c.defaultHeaders[k]
    ensures e.sent.verb == Some("POST") && e.sent.body == Some(FormData(form))
    ensures e.sent.url == c.baseURL + endpoint
    ensures var plain := Request(c, s, endpoint, opts, outcome);
            e.result == plain.result && e.client == plain.client && e.storage == plain.storage
  {
    var settled := Settle(c, s, outcome);
    Exchange(Outgoing(c.baseURL + endpoint, Some("POST"), Without(c.defaultHeaders, ContentType), Some(FormData(form))),
             settled.result, settled.client, settled.storage)
  }
}
