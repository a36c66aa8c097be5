/** What the data hooks share: the outcome of a `queryFn`/`mutationFn`, the
    notifications it raises, the query configuration it declares, and the
    guard each one applies to the client's `{data, error, status}` triple. */
module Hooks {
  import opened Wrappers
  import opened FetchApi
  import LS = LocalStorage

  /** The message of a hook whose response had no (truthy) data. */
  const NoDataMessage := "No data received"

  /** A settled promise: the value returned, or the message of the Error thrown. */
  datatype Outcome<T> = Resolved(value: T) | Rejected(message: string)

  /** An error toast notification. */
  datatype Toast = ErrorToast(message: string)

  /** The configuration a query hook hands to the query library. */
  datatype QueryConfig = QueryConfig(key: seq<string>, enabled: bool, retry: nat)

  /** The client and the browser storage it shares with the rest of the app. */
  datatype Api = Api(client: Client, storage: LS.Storage)

  /** One run of a hook function: its outcome, the request it sent (if any),
      the client side afterwards, and the toasts it raised, in order. */
  datatype Run<T> = Run(outcome: Outcome<T>, sent: Option<Outgoing>, api: Api, toasts: seq<Toast>)

  /** `if (error)`: an empty error string is falsy and does not count. */
  predicate ErrorTruthy(e: Option<string>) {
    e.Some? && e.value != ""
  }

  /** The guard of every hook: a truthy error rejects first (with the error
      itself, or with `replacement` when the hook hides it); then falsy data
      rejects with `noData`; otherwise the data is returned unchanged. */
  function Unwrap(r: TransportResult, replacement: Option<string>, noData: string): (o: Outcome<Data>)
    ensures ErrorTruthy(r.error) ==> o == Rejected(replacement.GetOr(r.error.value))
    ensures !ErrorTruthy(r.error) && !DataTruthy(r.data) ==> o == Rejected(noData)
    ensures o.Resolved? <==> !ErrorTruthy(r.error) && DataTruthy(r.data)
    ensures o.Resolved? ==> r.data == Some(o.value)
  {
    if ErrorTruthy(r.error) then Rejected(replacement.GetOr(r.error.value))
    else if !DataTruthy(r.data) then Rejected(noData)
    else Resolved(r.data.value)
  }

  /** A rejection reported once as an error toast, as the mutation hooks do before throwing. */
  function ToastRejection<T>(o: Outcome<T>): (ts: seq<Toast>)
    ensures o.Rejected? ==> ts == [ErrorToast(o.message)]
    ensures o.Resolved? ==> ts == []
  {
    if o.Rejected? then [ErrorToast(o.message)] else []
  }

  /** Runs one request and applies the guard. */
  function Guarded(e: Exchange, replacement: Option<string>, noData: string): (r: Run<Data>)
    ensures r.outcome == Unwrap(e.result, replacement, noData)
    ensures r.sent == Some(e.sent) && r.api == Api(e.client, e.storage) && r.toasts == []
  {
    Run(Unwrap(e.result, replacement, noData), Some(e.sent), Api(e.client, e.storage), [])
  }

  /** On any successful run, the transport reported no error: a 2xx response with truthy data. */
  lemma {:induction false} ResolvedMeansTransportSuccess(api: Api, endpoint: string, opts: Options, outcome: FetchOutcome,
                                                         replacement: Option<string>, noData: string)
    requires Unwrap(Request(api.client, api.storage, endpoint, opts, outcome).result, replacement, noData).Resolved?
    ensures outcome.Responded? && IsOk(outcome.response.status)
    ensures DataTruthy(ReadBody(outcome.response).data)
  {
    var e := Request(api.client, api.storage, endpoint, opts, outcome);
    assert !ErrorTruthy(e.result.error) && DataTruthy(e.result.data);
    assert e.result.error.None?;
  }
}
