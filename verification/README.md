# front_end-poze client core, in Dafny

This project models the logic of a client-side web application that sits
under its views:

- the `FetchAPI` HTTP client. It keeps a header map across calls (defaults,
  bearer token, per-call overrides, the upload variant). It turns the outcome
  of one `fetch` into a `{data, error, status}` triple with a fixed
  error-message precedence. It clears its own token on an unexplained 401.
- the persisted auth session store (`useAuthStore`): login, logout,
  access-token refresh, the loading and error setters, and the persisted
  snapshot.
- the data hooks. Each one turns the client's triple into a resolved value or
  a thrown message, with its own messages and toasts. The login and register
  hooks clean the phone number first and store the returned token on success.
- the admin users page: the search/status filter, the status toggle and the
  capitalised badges.

Everything is a pure function over immutable values:

- header maps are `map<string, string>`;
- browser storage is a `map<string, string>` shared by the client and the store;
- strings are `seq<char>`.

`fetch` is not modelled. Its outcome is an input value: either a response
(status, optional `content-type`, body) or a rejection. So `Request` is a
total function of the client, the storage, the call and that outcome. A
response body carries two things: its text, which is what `response.text()`
reads, and the outcome of parsing it as JSON, which is what `response.json()`
reads (a value, or a `SyntaxError`).

Facts the model keeps as the code has them:

- The client's token (storage key `authToken`) and the store's tokens (keys
  `access_token`/`refresh_token`) are never connected. A 401 clears only the
  client's token and header. It does not touch the store. A store login does
  not authorise the client.
- The hooks test `if (error)` and `if (!data)` by JavaScript truthiness. A JSON
  error body `{"message": ""}` therefore gives the error `""`. The admin,
  deposit, dashboard, login and register hooks then report missing data, not
  an error. `useGetCurrentUser` has no data test, so it resolves with `null`.
- A 2xx result can carry `null` data (a 204) or `""` (an empty text body). So
  "exactly one of data/error is non-null" does not hold on success.
- A body declared JSON that fails to parse throws inside the `try` block. It
  is reported like a network failure, with status 0.
- The login and register success handlers read `data.token`. When the
  response has no such member, they store the string "undefined" and remove
  the `Authorization` header.
- `useDashboard` takes no argument. It always requests `/dashboard` under the
  key `['dashboard']`.
- `upload` passes the defaults without `Content-Type` as its per-call headers,
  but `request` spreads the defaults back under them. So the JSON content type
  is sent with the form (see Findings).

## Model

| member | source | states |
|---|---|---|
| FetchApi.NewClient | src/api/fetchApi.ts:6-12 | The defaults are the caller's headers plus `Content-Type: application/json`, which a caller default overrides. |
| FetchApi.SetAuthToken | src/api/fetchApi.ts:15-26 | A truthy token installs `Authorization: Bearer <token>`. A falsy one (null, undefined, "", 0, false) removes `Authorization`. No other header changes. |
| FetchApiProperties.ClearTokenIdempotent | src/api/fetchApi.ts:21-25 | Removing the token twice is the same as removing it once. |
| FetchApi.SetBaseURL | src/api/fetchApi.ts:29-31 | Only the base URL changes. |
| FetchApiProperties.SetBaseURLRedirects | src/api/fetchApi.ts:29-31 | After `setBaseURL(url)` a call goes to `url` + endpoint. It sends the same headers and body, gets the same result, and changes the state in the same way as before. |
| FetchApi.SetDefaultHeaders | src/api/fetchApi.ts:34-39 | The new headers override the defaults key by key. Keys they do not name keep their values. |
| FetchApi.Boot | src/api/fetchApi.ts:173-182 | The singleton uses the environment URL, or `http://localhost:3000` when it is empty. It carries a bearer header exactly when a non-empty `authToken` is stored. |
| FetchApi.Request | src/api/fetchApi.ts:42-114 | The URL is base + endpoint, and per-call headers override the defaults. The error is null exactly for a readable 2xx response, whose data is then the body. On an error, data is null. A thrown fetch gives status 0 with its message or "Network error". The only state change is the 401 teardown, which touches only `Authorization` and `authToken`. |
| FetchApiProperties.HeaderPrecedence | src/api/fetchApi.ts:6-50 | The headers sent, in precedence order: per-call options, then `setDefaultHeaders`, then the constructor defaults, then the JSON content type. |
| FetchApiProperties.BearerTokenSent | src/api/fetchApi.ts:15-50 | After `setAuthToken(t)` with `t` non-empty, every call that does not override `Authorization` sends `Bearer t`. |
| FetchApiProperties.JsonCheckedBefore204 | src/api/fetchApi.ts:62-67 | A body declared JSON is parsed even on a 204, and it is the success data. |
| FetchApiProperties.JsonNullIsNullData | src/api/fetchApi.ts:62-64 | A JSON `null` body on a 2xx, 204 included, gives null data and a null error. |
| FetchApiProperties.NoContentIsNull | src/api/fetchApi.ts:62-67 | A 204 not declared JSON succeeds with null data. |
| FetchApiProperties.SuccessReturnsText | src/api/fetchApi.ts:65-105 | Any other 2xx body is returned as text, including "", with a null error. |
| FetchApiProperties.MalformedJsonIsStatusZero | src/api/fetchApi.ts:62-113 | A body declared JSON that does not parse gives status 0 with the SyntaxError message and no state change. |
| FetchApiProperties.JsonMessageFirst | src/api/fetchApi.ts:69-74 | On a non-2xx JSON object with `message`, that message is the error, even when it is empty. |
| FetchApiProperties.TextBodySecond | src/api/fetchApi.ts:75-76 | On a non-2xx response, a non-empty string body is the error. This holds for a text body not declared JSON and for a JSON body that parses to a string. |
| FetchApiProperties.StatusTableThird | src/api/fetchApi.ts:77-100 | An empty text body, or a JSON body without a message or non-empty string, falls through to the status table. |
| FetchApiProperties.StatusTable | src/api/fetchApi.ts:78-99 | 400, 401, 403, 404 and 500 map to their fixed phrases. Any other status maps to "HTTP Error: " + status. |
| FetchApiProperties.StatusMessageHead | src/api/fetchApi.ts:78-99 | The first character of a table message tells which entry it is, or that it is the fallback. |
| FetchApiProperties.StatusMessageInjective | src/api/fetchApi.ts:78-99 | No two statuses share a table message. |
| Strings.ParseNatToString | src/api/fetchApi.ts:98 | The decimal rendering of a status is inverted by parsing. |
| Strings.IntToStringInjective | src/api/fetchApi.ts:98 | Distinct statuses render differently. |
| Strings.ContainsIffSomeSuffix | src/api/fetchApi.ts:63 | `includes` holds exactly when some suffix starts with the pattern. |
| FetchApiProperties.TeardownIff | src/api/fetchApi.ts:73-87 | The token is cleared exactly on a 401 whose body gives no message: an empty text, or JSON that is neither an object with `message` nor a non-empty string. |
| FetchApiProperties.Unauthorized401WithMessageKeepsToken | src/api/fetchApi.ts:73-76 | A 401 that carries a JSON message or a text body leaves the client and the storage as they were. |
| FetchApi.Get | src/api/fetchApi.ts:117-122 | The method is forced to GET whatever the options say. The caller's body and headers are kept. |
| FetchApi.Post | src/api/fetchApi.ts:124-130 | The method is forced to POST, and the body is the serialised argument. |
| FetchApi.Put | src/api/fetchApi.ts:132-138 | The method is forced to PUT, and the body is the serialised argument. |
| FetchApi.Patch | src/api/fetchApi.ts:140-146 | The method is forced to PATCH, and the body is the serialised argument. |
| FetchApi.Delete | src/api/fetchApi.ts:148-153 | The method is forced to DELETE, and the caller's body is kept. |
| FetchApi.Upload | src/api/fetchApi.ts:156-170 | As written, the headers sent are exactly the defaults: the stripped Content-Type is spread back in. The request is a POST of the form data. The state changes only by the 401 teardown, as for any request. |
| FetchApiProperties.UploadIgnoresOptions | src/api/fetchApi.ts:164-169 | The caller's method, headers and body have no effect on an upload. |
| FetchApiProperties.UploadSendsJsonContentType | src/api/fetchApi.ts:161-169 | An upload from the module's client sends `Content-Type: application/json` with a form body. |
| FetchApi.UploadCorrected | src/api/fetchApi.ts:161 | The corrected upload sends every default header except Content-Type. Its result and state change are those of a plain request. |
| FetchApiProperties.CorrectedUploadOnlyDropsContentType | src/api/fetchApi.ts:156-170 | The corrected upload differs from the upload as written only in leaving out Content-Type. |
| HeaderMaps.Merge | src/api/fetchApi.ts:47-50 | Object spread: the union of the keys, with the later map winning. |
| HeaderMaps.Without | src/api/fetchApi.ts:162 | Destructuring one key away leaves every other key and its value. |
| HeaderMaps.MergeSubmap | src/api/fetchApi.ts:162-168 | Spreading a sub-map of the defaults back over them gives the defaults. |
| AuthStore.Initial | src/store/authStore.ts:29-32 | The store starts with no session, not loading, no error, and consistent. |
| AuthStore.Login | src/store/authStore.ts:35-45 | Login sets the session and the flag and clears the error. It keeps the loading flag and writes both tokens to storage. |
| AuthStore.Logout | src/store/authStore.ts:48-58 | Logout drops the session and the flag and clears the error. It keeps the loading flag and removes both token keys. |
| AuthStore.RefreshAccessToken | src/store/authStore.ts:61-77 | With a session, only `tokens.access` and `access_token` change. Role, user id, the refresh token and `refresh_token` are kept. Without a session, nothing changes. |
| AuthStore.SetLoading | src/store/authStore.ts:80 | Only the loading flag changes. |
| AuthStore.SetError | src/store/authStore.ts:83 | Only the error changes. |
| AuthStore.Partialize | src/store/authStore.ts:86-91 | The snapshot holds the session data and the flag. |
| AuthStoreProperties.ApplyPreservesConsistency | src/store/authStore.ts:34-83 | Every action keeps `isAuthenticated <==> data != null`. |
| AuthStoreProperties.ReachableStatesAreConsistent | src/store/authStore.ts:29-83 | The invariant holds after any sequence of actions from a consistent state. |
| AuthStoreProperties.InitialReachesOnlyConsistentStates | src/store/authStore.ts:29-83 | Every state reachable from the initial one is consistent. |
| AuthStoreProperties.LogoutIdempotent | src/store/authStore.ts:48-58 | Logging out twice gives the same state and storage as logging out once. |
| AuthStoreProperties.RefreshWithoutSessionIsNoOp | src/store/authStore.ts:62-63 | A refresh with no session changes neither the state nor the storage. |
| AuthStoreProperties.PersistedSnapshotIsDataAndFlag | src/store/authStore.ts:88-91 | Two states persist alike exactly when their data and flag agree. |
| AuthStoreProperties.TransientFieldsNotPersisted | src/store/authStore.ts:80-91 | The loading flag and the error never change what is persisted. |
| AuthStoreProperties.StoreNeverTouchesClientToken | src/store/authStore.ts:43-57 | No sequence of store actions changes the client's `authToken`. |
| AuthStoreProperties.ClientNeverTouchesStoreTokens | src/api/fetchApi.ts:84-86 | No request, the 401 teardown included, changes `access_token` or `refresh_token`. |
| AuthStoreProperties.LoginDoesNotAuthorizeClient | src/api/fetchApi.ts:178-182 | A client booted after a store login has the same headers as one booted without it. |
| Hooks.Unwrap | src/hooks/authHook.ts:46-54 | A truthy error rejects first, with that error or the hook's replacement. Falsy data then rejects with the hook's message. Otherwise the data is returned unchanged. |
| Hooks.ToastRejection | src/hooks/adminHook.ts:28-35 | A rejection is toasted once with its own message. A success raises no toast. |
| Hooks.ResolvedMeansTransportSuccess | src/hooks/authHook.ts:46-54 | A hook that applies the shared guard (login, register, admin list, status change, deposit, dashboard) resolves only on a 2xx response with truthy data. |
| Seqs.Filter | src/routes/admin/index.tsx:35-43 | The result is an order-preserving subsequence holding every kept element as often as it occurs, and nothing else. |
| AuthHook.StripWhitespace | src/hooks/authHook.ts:39 | No whitespace remains. The other characters keep their order and their counts. |
| AuthHook.RemoveFirst | src/hooks/authHook.ts:39 | With a string pattern, at most one character is removed, and the result is a subsequence. |
| AuthHook.IndexOf | src/hooks/authHook.ts:39 | The position holds the character, and no earlier position does. |
| AuthHook.RemoveFirstAt | src/hooks/authHook.ts:39 | The occurrence removed is the first one. Everything before and after it stays in place. |
| AuthHook.RemoveFirstCounts | src/hooks/authHook.ts:39 | The removal takes away exactly one copy of the character, or none when it is absent. |
| AuthHook.CleanPhone | src/hooks/authHook.ts:39 | The cleaned phone has no whitespace and one `+` fewer (none if there was none). Every other character keeps its count and order. |
| AuthHook.CleanPhoneRemovesOnlyFirstPlus | src/hooks/authHook.ts:39 | The cleaned phone is the phone without whitespace, with only its first `+` cut out. |
| AuthHook.CleanPhoneKeepsPlainPhone | src/hooks/authHook.ts:77 | A phone with no whitespace and no `+` is sent unchanged. |
| AuthHook.WithCleanPhone | src/hooks/authHook.ts:41-44 | The payload is the form with only `phone` replaced by its cleaned form. |
| AuthHook.LoginFn | src/hooks/authHook.ts:37-55 | The hook POSTs the cleaned form to `/auth/login` and applies the shared guard with "No data received". It raises no toast. Client and storage change only as the request changes them. |
| AuthHook.RegisterFn | src/hooks/authHook.ts:75-93 | The hook POSTs the cleaned form to `/auth/register` (the invitation code only when given) and applies the same guard. It raises no toast. Client and storage change only as the request changes them. |
| AuthHook.OnAuthSuccess | src/hooks/authHook.ts:56-63 | `String(data.token)` is stored under `authToken`, and the client gets `setAuthToken(data.token)`. No other key changes. |
| AuthHook.OnAuthSuccessStoresToken | src/hooks/authHook.ts:59-62 | A non-empty string token is stored as is and sent as `Bearer <token>`. |
| AuthHook.OnAuthSuccessWithoutToken | src/hooks/authHook.ts:59-62 | With no `token` member, the string "undefined" is stored and the header is removed. |
| AuthHook.CurrentUserConfig | src/hooks/authHook.ts:108-127 | The key is `['user']`, retry is disabled, and the query is enabled exactly when a non-empty `authToken` is stored. |
| AuthHook.CurrentUserFn | src/hooks/authHook.ts:111-124 | Without a token, it rejects with "No authentication token found" and sends nothing. Otherwise it GETs `/auth/me`, rejects on a truthy error, and else returns the data, even null. It never raises a toast. |
| AuthHook.CurrentUserEnabledIffFetches | src/hooks/authHook.ts:112-126 | The query is enabled exactly when its function would reach the network. |
| AuthHook.CurrentUserResolvesOnEmptyError | src/hooks/authHook.ts:117-123 | With a token stored, a network failure or a 401 whose message is empty resolves the current-user query with `null`. |
| AuthHook.LogoutFn | src/hooks/authHook.ts:134-139 | `authToken` and the `Authorization` header go. Nothing else in storage or the headers changes. |
| AuthHook.TeardownIsLogout | src/api/fetchApi.ts:82-86 | A 401 that reaches the status table has exactly the effect of `useLogout`. |
| AuthHook.LoginReportsServerMessage | src/hooks/authHook.ts:46-48 | A failed login rejects with the server's non-empty JSON message. |
| AuthHook.LoginEmptyMessageReadsAsNoData | src/hooks/authHook.ts:46-52 | An empty JSON message is falsy, so a failed login then rejects with "No data received". |
| AdminTypes.StatusNameInjective | src/types/adminTypes.ts:12 | Each status has its own wire spelling. |
| AdminHook.AdminUsersConfig | src/hooks/adminHook.ts:7-15 | The key is `['admin-users']`, the query is always enabled, and it retries twice. |
| AdminHook.AdminUsersFn | src/hooks/adminHook.ts:9-14 | The hook GETs `/admin/users`. A truthy error becomes "Error fetching admin data". Falsy data rejects with "No admin data received". Otherwise it resolves with the data. It raises no toast, and the state changes only as the request changes it. |
| AdminHook.AdminUsersHidesServerMessages | src/hooks/adminHook.ts:10-12 | The user list only ever rejects with its two fixed messages. |
| AdminHook.AdminUsersResolveOnSuccess | src/hooks/adminHook.ts:10-13 | A 2xx response with truthy data resolves with that data and leaves client and storage unchanged. |
| AdminHook.StatusBody | src/hooks/adminHook.ts:27 | The body has exactly one member, `status`, holding the new status's spelling. |
| AdminHook.ChangeStatusFn | src/hooks/adminHook.ts:26-37 | The hook PATCHes `/admin/users/{userId}/status`. A truthy error rejects with that string, before the data is checked. Falsy data rejects with "No data received". Otherwise it resolves with the data. Each rejection is toasted once. The state changes only as the request changes it. |
| AdminHook.ChangeStatusResolvesOnSuccess | src/hooks/adminHook.ts:27-36 | A 2xx response with truthy data resolves with that data, without a toast, and leaves client and storage unchanged. |
| AdminHook.ChangeStatusOnError | src/hooks/adminHook.ts:41-43 | The rejection message is toasted. |
| AdminHook.FailedStatusChangeToastsTwice | src/hooks/adminHook.ts:28-43 | A failed status change shows its message twice: once from the function, once from `onError`. |
| DepositHook.DepositFn | src/hooks/depositHook.ts:16-36 | The hook POSTs the variables unchanged to `/transactions/deposit`. A truthy error rejects with that string, before the data is checked. Falsy data rejects with "No data received from deposit". Otherwise it resolves with the data. A rejection is toasted once. The state changes only as the request changes it. |
| DepositHook.DepositResolvesOnSuccess | src/hooks/depositHook.ts:17-35 | A 2xx response with truthy data resolves with that data, without a toast, and leaves client and storage unchanged. |
| DepositHook.DepositOnError | src/hooks/depositHook.ts:42-45 | The toast shows the message, or "Deposit failed" when the message is empty. |
| DepositHook.DepositFallbackUnreachable | src/hooks/depositHook.ts:24-44 | Every rejection of the mutation function carries a non-empty message, so `onError` toasts that message and the "Deposit failed" fallback is never reached from it. |
| DashboardHook.DashboardConfig | src/hooks/dashboardHook.ts:6-8 | The key is `['dashboard']` with no user id, the query is always enabled, and it retries once. |
| QueryKeys.QueryKeysDistinct | src/hooks/dashboardHook.ts:8 | The dashboard key differs from the `['user']` and `['admin-users']` keys, and those two differ from each other, so no query is served another's cached data. |
| DashboardHook.DashboardFn | src/hooks/dashboardHook.ts:9-21 | The hook GETs `/dashboard` with no body. The transport error is passed through verbatim, checked first. Falsy data rejects with "No dashboard data received". Otherwise it resolves with the data. It raises no toast, and the state changes only as the request changes it. |
| DashboardHook.DashboardResolvesOnSuccess | src/hooks/dashboardHook.ts:10-20 | A 2xx response with truthy data resolves with that data and leaves client and storage unchanged. |
| DashboardHook.DashboardUnauthorized | src/hooks/dashboardHook.ts:12-14 | A bare 401 on the dashboard rejects with "Unauthorized" and clears the client's token and header. |
| AdminPage.FilterUsers | src/routes/admin/index.tsx:35-43 | The result is an order-preserving subsequence. Every kept user appears as often as in the list, and no other user appears. |
| AdminPage.FilteredUsers | src/routes/admin/index.tsx:32-44 | The result is `[]` when the data or `users` is absent. Otherwise it is a subsequence of `users` holding every kept user as often as it is listed, and no other user. |
| AdminPage.FilteredMembership | src/routes/admin/index.tsx:36-42 | A user is shown exactly when it is listed, and its lower-cased name contains the lower-cased query or its phone contains the raw query, and the filter is "all" or its status. |
| AdminPage.EmptySearchShowsAll | src/routes/admin/index.tsx:36-40 | An empty query with "all" shows the whole list. |
| AdminPage.PhoneMatchIsCaseSensitive | src/routes/admin/index.tsx:36-38 | Phone matching is case-sensitive. A user whose phone holds the query only after lower-casing, and whose name does not hold it, is filtered out. |
| Strings.LowerChar | src/routes/admin/index.tsx:37 | An ASCII capital is lowered. Every other character stays. |
| Strings.Lower | src/routes/admin/index.tsx:37 | Lowering keeps the length and works character by character. |
| AdminPage.Toggle | src/routes/admin/index.tsx:285 | Active becomes suspended. Inactive and suspended become active. The result always differs from the input and is never inactive. |
| AdminPage.ToggleTwice | src/routes/admin/index.tsx:285 | Toggling twice restores an active or suspended user. An inactive user ends up suspended. |
| AdminPage.HandleStatusChange | src/routes/admin/index.tsx:284-287 | The mutation gets the user's id. The new status is suspended exactly for an active user, and active for an inactive or suspended one. |
| Strings.UpperChar | src/routes/admin/index.tsx:207 | An ASCII small letter is raised, and lowering it back gives the letter. Every other character stays. |
| AdminPage.Capitalize | src/routes/admin/index.tsx:207 | The length is kept, the first character is upper-cased, and the rest is unchanged. |
| AdminPage.CapitalizeLowerRoundTrip | src/routes/admin/index.tsx:207 | Lowering a capitalised lower-case word gives the word back. |
| AdminPage.Labels | src/routes/admin/index.tsx:207-216 | The badges read Active, Inactive, Suspended, Customer, Admin and Superadmin. |
| AdminPage.StatusLabelLowersToName | src/routes/admin/index.tsx:207 | Lowering a status badge gives the status's spelling, so distinct statuses get distinct badges. |

## Left out

- The query cache (deduplication, staleness, retries, garbage collection, invalidation) is left out. It lives in the query library, not in this code. The `staleTime`/`gcTime` values are not modelled; `QueryConfig` keeps only the key, `enabled` and the retry count.
- `queryClient.setQueryData`, `removeQueries` and `clear` are not modelled, for the same reason. Neither is the admin mutation's `onSettled` refetch, which calls a hook outside a component and has no defined meaning.
- Real `fetch`, response streams, `console` and `toast` are left out. The fetch outcome is an input. Toasts are returned as a list. Logging is dropped. A failure while reading a text body counts as a rejection of the fetch.
- JSON parsing and `JSON.stringify` are abstracted. A body carries both its text and its parse, and the two are not checked against each other. A request body is the JSON value it serialises. Member order is not modelled.
- JSON numbers are integers. Fractions, exponents and their string forms are left out.
- FetchApi.ResponseJson: a response object whose `message` member is not a string is outside the model. In the code, such a value would become the `error` field as is.
- The persistence middleware's writing of the snapshot to the `auth-storage` key, and its rehydration on start-up, are left out. Only the snapshot (`Partialize`) is modelled.
- `toLowerCase`/`toUpperCase` are modelled on ASCII letters only. The full Unicode case mappings are left out. `\s` is modelled exactly.
- The success toasts (`toast.success(data.message)`) of the admin and deposit mutations are left out. A success toast is an effect in `onSuccess`, which runs after the mutation function, and this model follows only the error toasts.
- Async scheduling and concurrency are left out. Each call is one atomic step.
- Other `RequestInit` fields (`signal`, `credentials`, ...) are left out. The options carry only the method, the headers and the body.

## Findings

| source | as written | input that shows it | evidently intended | confidence | as-written member | corrected member |
|---|---|---|---|---|---|---|
| src/api/fetchApi.ts:161-169 | `upload` strips `Content-Type` from the defaults and passes the rest as per-call headers. `request` then spreads the defaults back under them (lines 47-50), so the JSON content type is sent again. | Any upload from the module's client, whose defaults hold `Content-Type: application/json`, with any form. | The form goes out without a Content-Type, so the browser sets `multipart/form-data` with its boundary, as the comment on line 161 says. | medium, not executed | FetchApiProperties.UploadSendsJsonContentType | FetchApi.UploadCorrected |
