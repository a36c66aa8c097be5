/** Properties of the client that relate several calls or read the
    classification in terms of the raw response. */
module FetchApiProperties {
  import opened Wrappers
  import opened Strings
  import opened Js
  import opened HeaderMaps
  import LS = LocalStorage
  import opened FetchApi

  // ---------------------------------------------------------------------------
  // Headers

  /** Clearing the token twice is clearing it once. */
  lemma ClearTokenIdempotent(c: Client)
    ensures SetAuthToken(SetAuthToken(c, None), None) == SetAuthToken(c, None)
  {
  }

  /** After `setAuthToken(t)` with a non-empty string, every call that does not
      override `Authorization` itself sends `Bearer t`. */
  lemma BearerTokenSent(c: Client, t: string, s: LS.Storage, endpoint: string, opts: Options, outcome: FetchOutcome)
    requires t != ""
    requires Authorization !in opts.headers
    ensures var e := Request(SetAuthToken(c, StringToken(Some(t))), s, endpoint, opts, outcome);
            Authorization in e.sent.headers && e.sent.headers[Authorization] == "Bearer " + t
  {
  }

  /** The three layers of headers a call sends: per-call options over
      `setDefaultHeaders`, over the constructor's defaults, over the JSON content type. */
  lemma HeaderPrecedence(base: string, d0: Headers, h1: Headers, s: LS.Storage, endpoint: string,
                         opts: Options, outcome: FetchOutcome, k: string)
    ensures var e := Request(SetDefaultHeaders(NewClient(base, d0), h1), s, endpoint, opts, outcome);
            && (k in e.sent.headers <==> k in opts.headers || k in h1 || k in d0 || k == ContentType)
            && (k in opts.headers ==> e.sent.headers[k] == opts.headers[k])
            && (k !in opts.headers && k in h1 ==> e.sent.headers[k] == h1[k])
            && (k !in opts.headers && k !in h1 && k in d0 ==> e.sent.headers[k] == d0[k])
            && (k !in opts.headers && k !in h1 && k !in d0 && k == ContentType ==>
                  e.sent.headers[k] == JsonMediaType)
  {
  }

  /** The caller's method, headers and body have no effect on an upload. */
  lemma UploadIgnoresOptions(c: Client, s: LS.Storage, endpoint: string, form: seq<(string, string)>,
                             o1: Options, o2: Options, outcome: FetchOutcome)
    ensures Upload(c, s, endpoint, form, o1, outcome) == Upload(c, s, endpoint, form, o2, outcome)
  {
  }

  // ---------------------------------------------------------------------------
  // Body classification on success

  /** A body declared JSON is parsed even when the status is 204. */
  lemma JsonCheckedBefore204(c: Client, s: LS.Storage, endpoint: string, opts: Options, r: Response)
    requires DeclaresJson(r) && IsOk(r.status)
    requires r.body.parsed.Value? && r.body.parsed.json != JNull
    ensures Request(c, s, endpoint, opts, Responded(r)).result
              == TransportResult(Some(Parsed(r.body.parsed.json)), None, r.status)
  {
  }

  /** A JSON `null` body on a 2xx, 204 included, is the null data with no error. */
  lemma JsonNullIsNullData(c: Client, s: LS.Storage, endpoint: string, opts: Options, r: Response)
    requires DeclaresJson(r) && IsOk(r.status) && r.body.parsed == Value(JNull)
    ensures Request(c, s, endpoint, opts, Responded(r)).result == TransportResult(None, None, r.status)
  {
  }

  /** A 204 not declared JSON has null data, whatever its text. */
  lemma NoContentIsNull(c: Client, s: LS.Storage, endpoint: string, opts: Options, r: Response)
    requires !DeclaresJson(r) && r.status == 204
    ensures Request(c, s, endpoint, opts, Responded(r)).result == TransportResult(None, None, 204)
  {
  }

  /** Any other 2xx body is returned as text, the empty text included: a
      success then carries neither null data nor an error. */
  lemma SuccessReturnsText(c: Client, s: LS.Storage, endpoint: string, opts: Options, r: Response)
    requires !DeclaresJson(r) && IsOk(r.status) && r.status != 204
    ensures Request(c, s, endpoint, opts, Responded(r)).result
              == TransportResult(Some(Text(r.body.text)), None, r.status)
  {
  }

  /** A body declared JSON that does not parse lands in the catch branch. */
  lemma MalformedJsonIsStatusZero(c: Client, s: LS.Storage, endpoint: string, opts: Options, r: Response)
    requires DeclaresJson(r) && r.body.parsed.SyntaxError?
    ensures var e := Request(c, s, endpoint, opts, Responded(r));
            && e.result == TransportResult(None, Some(r.body.parsed.message), 0)
            && e.client == c && e.storage == s
  {
  }

  // ---------------------------------------------------------------------------
  // Error-message precedence on failure

  /** First: the `message` member of a JSON object body, even an empty one. */
  lemma JsonMessageFirst(c: Client, s: LS.Storage, endpoint: string, opts: Options, r: Response)
    requires !IsOk(r.status) && DeclaresJson(r)
    requires r.body.parsed.Value? && r.body.parsed.json.JObj? && "message" in r.body.parsed.json.fields
    ensures Request(c, s, endpoint, opts, Responded(r)).result
              == TransportResult(None, Some(r.body.parsed.json.fields["message"].s), r.status)
  {
  }

  /** Second: a non-empty string body, either a text body not declared JSON
      or a JSON body that parses to a string. */
  lemma TextBodySecond(c: Client, s: LS.Storage, endpoint: string, opts: Options, r: Response)
    requires !IsOk(r.status)
    requires
      || (!DeclaresJson(r) && r.body.text != "")
      || (DeclaresJson(r) && r.body.parsed.Value? && r.body.parsed.json.JStr? && r.body.parsed.json.s != "")
    ensures !DeclaresJson(r) ==>
              Request(c, s, endpoint, opts, Responded(r)).result == TransportResult(None, Some(r.body.text), r.status)
    ensures DeclaresJson(r) ==>
              Request(c, s, endpoint, opts, Responded(r)).result == TransportResult(None, Some(r.body.parsed.json.s), r.status)
  {
  }

  /** Third: the status table, for an empty text body or a JSON body that is an
      object without `message` (or any other JSON value but a non-empty string). */
  lemma StatusTableThird(c: Client, s: LS.Storage, endpoint: string, opts: Options, r: Response)
    requires !IsOk(r.status)
    requires
      || (!DeclaresJson(r) && r.body.text == "")
      || (DeclaresJson(r) && r.body.parsed.Value?
          && !(r.body.parsed.json.JObj? && "message" in r.body.parsed.json.fields)
          && !(r.body.parsed.json.JStr? && r.body.parsed.json.s != ""))
    ensures Request(c, s, endpoint, opts, Responded(r)).result
              == TransportResult(None, Some(StatusMessage(r.status)), r.status)
  {
  }

  /** The fixed messages and the fallback. */
  lemma StatusTable(status: int)
    ensures status == 400 ==> StatusMessage(status) == "Bad Request"
    ensures status == 401 ==> StatusMessage(status) == "Unauthorized"
    ensures status == 403 ==> StatusMessage(status) == "Forbidden"
    ensures status == 404 ==> StatusMessage(status) == "Not Found"
    ensures status == 500 ==> StatusMessage(status) == "Internal Server Error"
    ensures status !in {400, 401, 403, 404, 500} ==> StatusMessage(status) == "HTTP Error: " + IntToString(status)
  {
  }

  /** The first character tells a table message from the fallback, and the table entries apart. */
  lemma StatusMessageHead(status: int)
    ensures StatusMessage(status) != []
    ensures status == 400 <==> StatusMessage(status)[0] == 'B'
    ensures status == 401 <==> StatusMessage(status)[0] == 'U'
    ensures status == 403 <==> StatusMessage(status)[0] == 'F'
    ensures status == 404 <==> StatusMessage(status)[0] == 'N'
    ensures status == 500 <==> StatusMessage(status)[0] == 'I'
    ensures status !in {400, 401, 403, 404, 500} <==> StatusMessage(status)[0] == 'H'
  {
  }

  /** The table message identifies the status: no two statuses share one. */
  lemma StatusMessageInjective(a: int, b: int)
    requires StatusMessage(a) == StatusMessage(b)
    ensures a == b
  {
    StatusMessageHead(a);
    StatusMessageHead(b);
    if StatusMessage(a)[0] == 'H' {
      var prefix := "HTTP Error: ";
      var m := StatusMessage(a);
      assert m == prefix + IntToString(a) && m == prefix + IntToString(b);
      assert IntToString(a) == m[|prefix|..] == IntToString(b);
      IntToStringInjective(a, b);
    }
  }

  // ---------------------------------------------------------------------------
  // The 401 teardown

  /** The token is cleared exactly for a 401 whose body supplies no message:
      a non-JSON empty body, or a JSON body that is neither an object with
      `message` nor a non-empty string. */
  lemma TeardownIff(outcome: FetchOutcome)
    ensures TearsDown(outcome) <==>
              && outcome.Responded?
              && outcome.response.status == 401
              && (if DeclaresJson(outcome.response) then
                    && outcome.response.body.parsed.Value?
                    && !(outcome.response.body.parsed.json.JObj? && "message" in outcome.response.body.parsed.json.fields)
                    && !(outcome.response.body.parsed.json.JStr? && outcome.response.body.parsed.json.s != "")
                  else outcome.response.body.text == "")
  {
  }

  /** A 401 that carries a message keeps the token in place and reports that message. */
  lemma Unauthorized401WithMessageKeepsToken(c: Client, s: LS.Storage, endpoint: string, opts: Options, r: Response)
    requires r.status == 401
    requires (DeclaresJson(r) && r.body.parsed.Value? && r.body.parsed.json.JObj? && "message" in r.body.parsed.json.fields)
             || (!DeclaresJson(r) && r.body.text != "")
    ensures var e := Request(c, s, endpoint, opts, Responded(r));
            e.client == c && e.storage == s && e.result.status == 401 && e.result.error.Some?
  {
  }

  /** As written, an upload from the module's client sends the JSON content
      type with a form body, although the method means to leave it out. */
  lemma UploadSendsJsonContentType(apiUrl: Option<string>, storage: LS.Storage, endpoint: string,
                                   form: seq<(string, string)>, opts: Options, outcome: FetchOutcome)
    ensures var e := Upload(Boot(apiUrl, storage), storage, endpoint, form, opts, outcome);
            && e.sent.body == Some(FormData(form))
            && ContentType in e.sent.headers && e.sent.headers[ContentType] == JsonMediaType
  {
  }

  /** The corrected upload sends no Content-Type, keeps every other default
      header, and differs from the upload as written in nothing else. */
  lemma CorrectedUploadOnlyDropsContentType(c: Client, s: LS.Storage, endpoint: string,
                                            form: seq<(string, string)>, opts: Options, outcome: FetchOutcome)
    ensures var fixed, written := UploadCorrected(c, s, endpoint, form, opts, outcome),
                                  Upload(c, s, endpoint, form, opts, outcome);
            && ContentType !in fixed.sent.headers
            && fixed.sent.headers == Without(written.sent.headers, ContentType)
            && fixed.sent.(headers := written.sent.headers) == written.sent
            && fixed.result == written.result && fixed.client == written.client && fixed.storage == written.storage
  {
  }

  /** After `setBaseURL(url)` a call goes to `url + endpoint` and is otherwise
      the call it would have been: same headers, body, result and state change. */
  lemma SetBaseURLRedirects(c: Client, s: LS.Storage, url: string, endpoint: string, opts: Options,
                            outcome: FetchOutcome)
    ensures var moved, before := Request(SetBaseURL(c, url), s, endpoint, opts, outcome), Request(c, s, endpoint, opts, outcome);
            && moved.sent == before.sent.(url := url + endpoint)
            && moved.result == before.result
            && moved.storage == before.storage
            && moved.client == SetBaseURL(before.client, url)
  {
  }
}
