/** The dashboard query. */
module DashboardHook {
  import opened Wrappers
  import opened FetchApi
  import opened Hooks

  const DashboardPath := "/dashboard"
  const NoDashboardDataMessage := "No dashboard data received"

  /** `useDashboard`'s options. The hook takes no argument, so the key names no user. */
  function DashboardConfig(): (q: QueryConfig)
    ensures q.key == ["dashboard"] && q.enabled && q.retry == 1
  {
    QueryConfig(["dashboard"], true, 1)
  }

  /** `useDashboard`'s query function: always GET `/dashboard`; the transport
      error verbatim first, then missing data, else the data unchanged. */
  function DashboardFn(api: Api, outcome: FetchOutcome): (r: Run<Data>)
    ensures r.sent.Some? && r.sent.value.url == api.client.baseURL + DashboardPath
    ensures r.sent.value.verb == Some("GET") && r.sent.value.body.None?
    ensures var e := Get(api.client, api.storage, DashboardPath, NoOptions, outcome);
            && r.sent == Some(e.sent) && r.api == Api(e.client, e.storage) && r.toasts == []
            && r.outcome == Unwrap(e.result, None, NoDashboardDataMessage)
            && (ErrorTruthy(e.result.error) ==> r.outcome == Rejected(e.result.error.value))
            && (!ErrorTruthy(e.result.error) && !DataTruthy(e.result.data) ==> r.outcome == Rejected(NoDashboardDataMessage))
            && (!ErrorTruthy(e.result.error) && DataTruthy(e.result.data) ==> r.outcome == Resolved(e.result.data.value))
  {
    Guarded(Get(api.client, api.storage, DashboardPath, NoOptions, outcome), None, NoDashboardDataMessage)
  }

  /** A 2xx response with truthy data resolves the dashboard with that data
      and leaves the client and the storage as they were. */
  lemma DashboardResolvesOnSuccess(api: Api, resp: Response)
    requires IsOk(resp.status) && ReadBody(resp).Read? && DataTruthy(ReadBody(resp).data)
    ensures var r := DashboardFn(api, Responded(resp));
            r.outcome == Resolved(ReadBody(resp).data.value) && r.api == api && r.toasts == []
  {
  }

  /** A 401 on the dashboard with an empty body clears the client token and
      reports "Unauthorized". */
  lemma DashboardUnauthorized(api: Api, r: Response)
    requires r.status == 401 && !DeclaresJson(r) && r.body.text == ""
    ensures var run := DashboardFn(api, Responded(r));
            && run.outcome == Rejected("Unauthorized")
            && Authorization !in run.api.client.defaultHeaders
            && AuthTokenKey !in run.api.storage
  {
    assert TearsDown(Responded(r));
  }
}
