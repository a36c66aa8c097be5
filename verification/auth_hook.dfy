/** The authentication hooks: phone cleaning, the login and register
    mutations with the token they store on success, the current-user query
    and the logout function. */
module AuthHook {
  import opened Wrappers
  import opened Strings
  import opened Seqs
  import opened Js
  import LS = LocalStorage
  import opened FetchApi
  import opened Hooks
  import HeaderMaps
  import FetchApiProperties

  const LoginPath := "/auth/login"
  const RegisterPath := "/auth/register"
  const MePath := "/auth/me"
  const NoTokenMessage := "No authentication token found"

  // ---------------------------------------------------------------------------
  // Phone cleaning: `phone.replace(/\s+/g, '').replace('+', '')`

  /** Every whitespace run removed: the non-whitespace characters, in order. */
  function StripWhitespace(s: string): (r: string)
    ensures forall i :: 0 <= i < |r| ==> !IsWhitespace(r[i])
    ensures IsSubsequence(r, s)
    ensures forall c :: multiset(r)[c] == if IsWhitespace(c) then 0 else multiset(s)[c]
  {
    var r := Filter(c => !IsWhitespace(c), s);
    assert forall i :: 0 <= i < |r| ==> r[i] in r;
    r
  }

  /** `replace(c, '')` with a string pattern: only the first occurrence goes. */
  function RemoveFirst(s: string, c: char): (r: string)
    ensures c !in s ==> r == s
    ensures c in s ==> |r| == |s| - 1
    ensures IsSubsequence(r, s)
  {
    if s == [] then []
    else
      assert s == [s[0]] + s[1..];
      if s[0] == c then SubsequenceTail(s); s[1..] else [s[0]] + RemoveFirst(s[1..], c)
  }

  /** The position of the first `c` in `s`. */
  function IndexOf(s: string, c: char): (k: nat)
    requires c in s
    ensures k < |s| && s[k] == c && c !in s[..k]
  {
    if s[0] == c then 0
    else
      assert c in s[1..] by {
        var j :| 0 <= j < |s| && s[j] == c;
        assert s[1..][j - 1] == c;
      }
      var k := IndexOf(s[1..], c);
      assert s[..k + 1] == [s[0]] + s[1..][..k];
      k + 1
  }

  /** The occurrence removed is the first one; what precedes and follows it stays in place. */
  lemma {:induction false} RemoveFirstAt(s: string, c: char)
    requires c in s
    ensures RemoveFirst(s, c) == s[..IndexOf(s, c)] + s[IndexOf(s, c) + 1..]
  {
    if s[0] != c {
      var t := s[1..];
      assert c in t by {
        var j :| 0 <= j < |s| && s[j] == c;
        assert t[j - 1] == c;
      }
      RemoveFirstAt(t, c);
      var k := IndexOf(t, c);
      assert IndexOf(s, c) == k + 1;
      assert RemoveFirst(s, c) == [s[0]] + RemoveFirst(t, c);
      calc {
        RemoveFirst(s, c);
        [s[0]] + (t[..k] + t[k + 1..]);
        { assert s[..k + 1] == [s[0]] + t[..k]; assert s[k + 2..] == t[k + 1..]; }
        s[..k + 1] + s[k + 2..];
      }
    }
  }

  /** Exactly one `c` goes, when there is one, and nothing else. */
  lemma {:induction false} RemoveFirstCounts(s: string, c: char)
    ensures multiset(RemoveFirst(s, c)) == multiset(s) - multiset{c}
  {
    if c in s {
      var k := IndexOf(s, c);
      RemoveFirstAt(s, c);
      MultisetWithout(s, k);
    } else {
      assert RemoveFirst(s, c) == s;
      assert multiset(s)[c] == 0;
    }
  }

  /** The phone number sent to the server. */
  function CleanPhone(phone: string): (r: string)
    ensures forall i :: 0 <= i < |r| ==> !IsWhitespace(r[i])
    ensures IsSubsequence(r, phone)
    ensures multiset(r)['+'] == if multiset(phone)['+'] > 0 then multiset(phone)['+'] - 1 else 0
    ensures forall x :: x != '+' && !IsWhitespace(x) ==> multiset(r)[x] == multiset(phone)[x]
  {
    var stripped := StripWhitespace(phone);
    assert '+' in stripped <==> multiset(phone)['+'] > 0 by {
      assert multiset(stripped)['+'] == multiset(phone)['+'];
    }
    SubsequenceTransitive(RemoveFirst(stripped, '+'), stripped, phone);
    RemoveFirstCounts(stripped, '+');
    RemoveFirst(stripped, '+')
  }

  /** Removing the first `+` after the whitespace leaves every later `+` and
      the order of the rest: the cleaned phone is the phone without its
      whitespace, with only its first `+` cut out. */
  lemma CleanPhoneRemovesOnlyFirstPlus(phone: string)
    requires '+' in StripWhitespace(phone)
    ensures var s := StripWhitespace(phone);
            var k := IndexOf(s, '+');
            CleanPhone(phone) == s[..k] + s[k + 1..]
  {
    RemoveFirstAt(StripWhitespace(phone), '+');
  }

  /** A phone with no whitespace and no `+` is sent as typed. */
  lemma CleanPhoneKeepsPlainPhone(phone: string)
    requires forall i :: 0 <= i < |phone| ==> !IsWhitespace(phone[i])
    requires '+' !in phone
    ensures CleanPhone(phone) == phone
  {
    FilterKeepsAll(c => !IsWhitespace(c), phone);
  }

  // ---------------------------------------------------------------------------
  // Login and register mutations

  datatype LoginForm = LoginForm(phone: string, password: string)

  datatype RegisterForm = RegisterForm(firstName: string, phone: string, password: string, invitationCode: Option<string>)

  /** The form as `JSON.stringify` writes it (an absent invitation code is omitted). */
  function LoginJson(f: LoginForm): map<string, Json> {
    map["phone" := JStr(f.phone), "password" := JStr(f.password)]
  }

  function RegisterJson(f: RegisterForm): map<string, Json> {
    var fields := map["first_name" := JStr(f.firstName), "phone" := JStr(f.phone), "password" := JStr(f.password)];
    if f.invitationCode.Some? then fields["invitation_code" := JStr(f.invitationCode.value)] else fields
  }

  /** `{...form, phone: cleaned}`: the form with only its phone replaced. */
  function WithCleanPhone(fields: map<string, Json>, phone: string): (r: Json)
    ensures r.JObj? && r.fields.Keys == fields.Keys + {"phone"}
    ensures r.fields["phone"] == JStr(CleanPhone(phone))
    ensures forall k :: k in fields && k != "phone" ==> r.fields[k] == fields[k]
  {
    JObj(fields["phone" := JStr(CleanPhone(phone))])
  }

  function LoginFn(api: Api, f: LoginForm, outcome: FetchOutcome): (r: Run<Data>)
    ensures r.sent.Some? && r.sent.value.url == api.client.baseURL + LoginPath
    ensures r.sent.value.verb == Some("POST")
    ensures r.sent.value.body == Some(Serialized(WithCleanPhone(LoginJson(f), f.phone)))
    ensures var e := Request(api.client, api.storage, LoginPath, NoOptions.(verb := Some("POST"), body := r.sent.value.body), outcome);
            && r.sent == Some(e.sent) && r.api == Api(e.client, e.storage) && r.toasts == []
            && r.outcome == Unwrap(e.result, None, NoDataMessage)
  {
    Guarded(Post(api.client, api.storage, LoginPath, WithCleanPhone(LoginJson(f), f.phone), NoOptions, outcome),
            None, NoDataMessage)
  }

  function RegisterFn(api: Api, f: RegisterForm, outcome: FetchOutcome): (r: Run<Data>)
    ensures r.sent.Some? && r.sent.value.url == api.client.baseURL + RegisterPath
    ensures r.sent.value.verb == Some("POST")
    ensures r.sent.value.body == Some(Serialized(WithCleanPhone(RegisterJson(f), f.phone)))
    ensures var e := Request(api.client, api.storage, RegisterPath, NoOptions.(verb := Some("POST"), body := r.sent.value.body), outcome);
            && r.sent == Some(e.sent) && r.api == Api(e.client, e.storage) && r.toasts == []
            && r.outcome == Unwrap(e.result, None, NoDataMessage)
  {
    Guarded(Post(api.client, api.storage, RegisterPath, WithCleanPhone(RegisterJson(f), f.phone), NoOptions, outcome),
            None, NoDataMessage)
  }

  /** `data.token`: None is `undefined` (absent member, or data that is not an object). */
  function TokenOf(d: Data): Option<Json> {
    if d.Parsed? && d.json.JObj? && "token" in d.json.fields then Some(d.json.fields["token"]) else None
  }

  /** The shared `onSuccess`: the token, converted to a string, goes to
      storage, and the client installs it as bearer token when truthy. */
  function OnAuthSuccess(api: Api, d: Data): (r: Api)
    ensures LS.GetItem(r.storage, AuthTokenKey) == Some(ToJsStringValue(TokenOf(d)))
    ensures LS.AgreeOutside(api.storage, r.storage, {AuthTokenKey})
    ensures r.client == SetAuthToken(api.client, TokenOf(d))
  {
    Api(SetAuthToken(api.client, TokenOf(d)), LS.SetItem(api.storage, AuthTokenKey, ToJsStringValue(TokenOf(d))))
  }

  /** A string token is stored as is and sent as `Bearer <token>`. */
  lemma OnAuthSuccessStoresToken(api: Api, d: Data, t: string)
    requires TokenOf(d) == Some(JStr(t)) && t != ""
    ensures var r := OnAuthSuccess(api, d);
            && LS.GetItem(r.storage, AuthTokenKey) == Some(t)
            && Authorization in r.client.defaultHeaders
            && r.client.defaultHeaders[Authorization] == "Bearer " + t
  {
  }

  /** A response without `token` stores the string "undefined" and removes the header. */
  lemma OnAuthSuccessWithoutToken(api: Api, d: Data)
    requires TokenOf(d).None?
    ensures var r := OnAuthSuccess(api, d);
            LS.GetItem(r.storage, AuthTokenKey) == Some("undefined") && Authorization !in r.client.defaultHeaders
  {
  }

  // ---------------------------------------------------------------------------
  // Current user and logout

  /** The stored client token passes `if (token)`. */
  predicate HasToken(s: LS.Storage) {
    AuthTokenKey in s && s[AuthTokenKey] != ""
  }

  /** `useGetCurrentUser`'s options: enabled only with a stored token, never retried. */
  function CurrentUserConfig(s: LS.Storage): (q: QueryConfig)
    ensures q.key == ["user"] && q.retry == 0
    ensures q.enabled <==> LS.GetItem(s, AuthTokenKey).Some? && LS.GetItem(s, AuthTokenKey).value != ""
  {
    QueryConfig(["user"], HasToken(s), 0)
  }

  /** `useGetCurrentUser`'s query function. Unlike the other hooks it returns
      the data even when it is null. */
  function CurrentUserFn(api: Api, outcome: FetchOutcome): (r: Run<Option<Data>>)
    ensures r.toasts == []
    ensures !HasToken(api.storage) ==> r == Run(Rejected(NoTokenMessage), None, api, [])
    ensures HasToken(api.storage) ==>
              var e := Get(api.client, api.storage, MePath, NoOptions, outcome);
              && r.sent == Some(e.sent) && r.api == Api(e.client, e.storage)
              && (ErrorTruthy(e.result.error) ==> r.outcome == Rejected(e.result.error.value))
              && (!ErrorTruthy(e.result.error) ==> r.outcome == Resolved(e.result.data))
  {
    if !HasToken(api.storage) then Run(Rejected(NoTokenMessage), None, api, [])
    else
      var e := Get(api.client, api.storage, MePath, NoOptions, outcome);
      var o := if ErrorTruthy(e.result.error) then Rejected(e.result.error.value) else Resolved(e.result.data);
      Run(o, Some(e.sent), Api(e.client, e.storage), [])
  }

  /** The query runs exactly when the function would reach the network. */
  lemma CurrentUserEnabledIffFetches(api: Api, outcome: FetchOutcome)
    ensures CurrentUserConfig(api.storage).enabled <==> CurrentUserFn(api, outcome).sent.Some?
  {
  }

  /** With no data test, an empty error message lets the query resolve with
      `null`, even on a network failure or an HTTP error. */
  lemma CurrentUserResolvesOnEmptyError(api: Api, r: Response)
    requires HasToken(api.storage)
    requires r.status == 401 && DeclaresJson(r) && r.body.parsed == Value(JObj(map["message" := JStr("")]))
    ensures CurrentUserFn(api, Threw(Some(""))).outcome == Resolved(None)
    ensures CurrentUserFn(api, Responded(r)).outcome == Resolved(None)
  {
  }

  /** `useLogout()`'s function: the client token goes from storage and from the
      headers. The auth store is not touched. */
  function LogoutFn(api: Api): (r: Api)
    ensures LS.GetItem(r.storage, AuthTokenKey).None? && LS.AgreeOutside(api.storage, r.storage, {AuthTokenKey})
    ensures Authorization !in r.client.defaultHeaders
    ensures HeaderMaps.AgreeExcept(api.client.defaultHeaders, r.client.defaultHeaders, Authorization)
  {
    Api(SetAuthToken(api.client, None), LS.RemoveItem(api.storage, AuthTokenKey))
  }

  /** A 401 that reaches the status table has exactly the effect of logging out. */
  lemma TeardownIsLogout(api: Api, endpoint: string, opts: Options, outcome: FetchOutcome)
    requires TearsDown(outcome)
    ensures var e := Request(api.client, api.storage, endpoint, opts, outcome);
            Api(e.client, e.storage) == LogoutFn(api)
  {
  }

  // ---------------------------------------------------------------------------
  // End to end

  /** A failed login reports the server's non-empty JSON message. */
  lemma LoginReportsServerMessage(api: Api, f: LoginForm, r: Response, m: string)
    requires !IsOk(r.status) && DeclaresJson(r) && m != ""
    requires r.body.parsed.Value? && r.body.parsed.json.JObj?
    requires "message" in r.body.parsed.json.fields && r.body.parsed.json.fields["message"] == JStr(m)
    ensures LoginFn(api, f, Responded(r)).outcome == Rejected(m)
  {
    var body := Serialized(WithCleanPhone(LoginJson(f), f.phone));
    FetchApiProperties.JsonMessageFirst(api.client, api.storage, LoginPath,
                                        NoOptions.(verb := Some("POST"), body := Some(body)), r);
  }

  /** An empty JSON message is a falsy error, so a failed login then reports missing data. */
  lemma LoginEmptyMessageReadsAsNoData(api: Api, f: LoginForm, r: Response)
    requires !IsOk(r.status) && DeclaresJson(r)
    requires r.body.parsed.Value? && r.body.parsed.json.JObj?
    requires "message" in r.body.parsed.json.fields && r.body.parsed.json.fields["message"] == JStr("")
    ensures LoginFn(api, f, Responded(r)).outcome == Rejected(NoDataMessage)
  {
    var body := Serialized(WithCleanPhone(LoginJson(f), f.phone));
    FetchApiProperties.JsonMessageFirst(api.client, api.storage, LoginPath,
                                        NoOptions.(verb := Some("POST"), body := Some(body)), r);
  }
}
