/** The admin hooks: the user-list query and the status-change mutation. */
module AdminHook {
  import opened Wrappers
  import opened Js
  import opened FetchApi
  import opened Hooks
  import opened AdminTypes

  const UsersPath := "/admin/users"
  const FetchFailedMessage := "Error fetching admin data"
  const NoAdminDataMessage := "No admin data received"

  /** `userAdminQuery`'s options: always enabled, two retries. */
  function AdminUsersConfig(): (q: QueryConfig)
    ensures q.key == ["admin-users"] && q.enabled && q.retry == 2
  {
    QueryConfig(["admin-users"], true, 2)
  }

  /** `userAdminQuery`'s query function: any truthy transport error is replaced
      by one fixed message, so the server's message never reaches the page. */
  function AdminUsersFn(api: Api, outcome: FetchOutcome): (r: Run<Data>)
    ensures var e := Get(api.client, api.storage, UsersPath, NoOptions, outcome);
            && r.sent == Some(e.sent) && e.sent.verb == Some("GET")
            && r.outcome == Unwrap(e.result, Some(FetchFailedMessage), NoAdminDataMessage)
            && (ErrorTruthy(e.result.error) ==> r.outcome == Rejected(FetchFailedMessage))
            && (!ErrorTruthy(e.result.error) && !DataTruthy(e.result.data) ==> r.outcome == Rejected(NoAdminDataMessage))
            && (!ErrorTruthy(e.result.error) && DataTruthy(e.result.data) ==> r.outcome == Resolved(e.result.data.value))
            && r.api == Api(e.client, e.storage) && r.toasts == []
  {
    Guarded(Get(api.client, api.storage, UsersPath, NoOptions, outcome), Some(FetchFailedMessage), NoAdminDataMessage)
  }

  /** The only rejection messages the page can see from the user list. */
  lemma AdminUsersHidesServerMessages(api: Api, outcome: FetchOutcome)
    ensures var o := AdminUsersFn(api, outcome).outcome;
            o.Rejected? ==> o.message == FetchFailedMessage || o.message == NoAdminDataMessage
  {
  }

  /** A 2xx response with truthy data resolves the user list with that data,
      and leaves the client and the storage as they were. */
  lemma AdminUsersResolveOnSuccess(api: Api, resp: Response)
    requires IsOk(resp.status) && ReadBody(resp).Read? && DataTruthy(ReadBody(resp).data)
    ensures var r := AdminUsersFn(api, Responded(resp));
            r.outcome == Resolved(ReadBody(resp).data.value) && r.api == api && r.toasts == []
  {
  }

  /** The variables of the status mutation. */
  datatype StatusChange = StatusChange(userId: string, newStatus: UserStatus)

  function StatusPath(userId: string): string {
    "/admin/users/" + userId + "/status"
  }

  /** The request body: exactly one member, `status`. */
  function StatusBody(s: UserStatus): (j: Json)
    ensures j.JObj? && j.fields.Keys == {"status"} && j.fields["status"] == JStr(StatusName(s))
  {
    JObj(map["status" := JStr(StatusName(s))])
  }

  /** `changeUserStatusMutation`'s mutation function: PATCH the user's status;
      a rejection is toasted once with the message it is thrown with. */
  function ChangeStatusFn(api: Api, v: StatusChange, outcome: FetchOutcome): (r: Run<Data>)
    ensures r.sent.Some?
    ensures r.sent.value.url == api.client.baseURL + "/admin/users/" + v.userId + "/status"
    ensures r.sent.value.verb == Some("PATCH") && r.sent.value.body == Some(Serialized(StatusBody(v.newStatus)))
    ensures var e := Patch(api.client, api.storage, StatusPath(v.userId), StatusBody(v.newStatus), NoOptions, outcome);
            && r.sent == Some(e.sent) && r.api == Api(e.client, e.storage)
            && r.outcome == Unwrap(e.result, None, NoDataMessage)
            && (ErrorTruthy(e.result.error) ==> r.outcome == Rejected(e.result.error.value))
            && (!ErrorTruthy(e.result.error) && !DataTruthy(e.result.data) ==> r.outcome == Rejected(NoDataMessage))
            && (!ErrorTruthy(e.result.error) && DataTruthy(e.result.data) ==> r.outcome == Resolved(e.result.data.value))
    ensures r.outcome.Rejected? ==> r.toasts == [ErrorToast(r.outcome.message)]
    ensures r.outcome.Resolved? ==> r.toasts == []
  {
    var run := Guarded(Patch(api.client, api.storage, StatusPath(v.userId), StatusBody(v.newStatus), NoOptions, outcome),
                       None, NoDataMessage);
    run.(toasts := ToastRejection(run.outcome))
  }

  /** A 2xx response with truthy data resolves the status change with that
      data, without a toast and without touching the client or the storage. */
  lemma ChangeStatusResolvesOnSuccess(api: Api, v: StatusChange, resp: Response)
    requires IsOk(resp.status) && ReadBody(resp).Read? && DataTruthy(ReadBody(resp).data)
    ensures var r := ChangeStatusFn(api, v, Responded(resp));
            r.outcome == Resolved(ReadBody(resp).data.value) && r.api == api && r.toasts == []
  {
  }

  /** `onError`: the thrown message is toasted again. */
  function ChangeStatusOnError(message: string): (ts: seq<Toast>)
    ensures ts == [ErrorToast(message)]
  {
    [ErrorToast(message)]
  }

  /** A failed status change with a server message shows that message twice:
      once from the mutation function, once from `onError`. */
  lemma FailedStatusChangeToastsTwice(api: Api, v: StatusChange, outcome: FetchOutcome)
    requires ChangeStatusFn(api, v, outcome).outcome.Rejected?
    ensures var r := ChangeStatusFn(api, v, outcome);
            r.toasts + ChangeStatusOnError(r.outcome.message) == [ErrorToast(r.outcome.message), ErrorToast(r.outcome.message)]
  {
  }
}
