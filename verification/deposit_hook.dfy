/** The deposit mutation. */
module DepositHook {
  import opened Wrappers
  import opened Js
  import opened FetchApi
  import opened Hooks

  const DepositPath := "/transactions/deposit"
  const NoDepositDataMessage := "No data received from deposit"
  const DepositFailedMessage := "Deposit failed"

  /** `depositHook`'s mutation function: the variables are posted unchanged; a
      rejection is toasted once with the message it carries. */
  function DepositFn(api: Api, variables: map<string, Json>, outcome: FetchOutcome): (r: Run<Data>)
    ensures r.sent.Some? && r.sent.value.url == api.client.baseURL + DepositPath
    ensures r.sent.value.verb == Some("POST") && r.sent.value.body == Some(Serialized(JObj(variables)))
    ensures var e := Post(api.client, api.storage, DepositPath, JObj(variables), NoOptions, outcome);
            && r.sent == Some(e.sent) && r.api == Api(e.client, e.storage)
            && r.outcome == Unwrap(e.result, None, NoDepositDataMessage)
            && (ErrorTruthy(e.result.error) ==> r.outcome == Rejected(e.result.error.value))
            && (!ErrorTruthy(e.result.error) && !DataTruthy(e.result.data) ==> r.outcome == Rejected(NoDepositDataMessage))
            && (!ErrorTruthy(e.result.error) && DataTruthy(e.result.data) ==> r.outcome == Resolved(e.result.data.value))
    ensures r.toasts == if r.outcome.Rejected? then [ErrorToast(r.outcome.message)] else []
  {
    var run := Guarded(Post(api.client, api.storage, DepositPath, JObj(variables), NoOptions, outcome),
                       None, NoDepositDataMessage);
    run.(toasts := ToastRejection(run.outcome))
  }

  /** A 2xx response with truthy data resolves the deposit with that data,
      without a toast and without touching the client or the storage. */
  lemma DepositResolvesOnSuccess(api: Api, variables: map<string, Json>, resp: Response)
    requires IsOk(resp.status) && ReadBody(resp).Read? && DataTruthy(ReadBody(resp).data)
    ensures var r := DepositFn(api, variables, Responded(resp));
            r.outcome == Resolved(ReadBody(resp).data.value) && r.api == api && r.toasts == []
  {
  }

  /** `onError`: `error.message || 'Deposit failed'`. */
  function DepositOnError(message: string): (ts: seq<Toast>)
    ensures message != "" ==> ts == [ErrorToast(message)]
    ensures message == "" ==> ts == [ErrorToast(DepositFailedMessage)]
  {
    [ErrorToast(if message != "" then message else DepositFailedMessage)]
  }

  /** Every rejection of the mutation function carries a non-empty message,
      so `onError` toasts that message and its fallback is never reached. */
  lemma DepositFallbackUnreachable(api: Api, variables: map<string, Json>, outcome: FetchOutcome)
    requires DepositFn(api, variables, outcome).outcome.Rejected?
    ensures var m := DepositFn(api, variables, outcome).outcome.message;
            m != "" && DepositOnError(m) == [ErrorToast(m)]
  {
  }
}
