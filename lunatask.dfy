/**
 * The client facade (src/lunatask/api.ts): it holds the access token, hands
 * the same token to its task client, and answers `ping`.
 */
module Lunatask {
  import opened Wrappers
  import opened Errors
  import opened Http
  import opened Types
  import opened Tasks

  /** The decoded body of `/ping`: falsy (`null`, an empty string, ...), or
      an object whose `message` is a string or is missing (`None`). */
  datatype PingBody = FalsyData | PingData(message: Option<string>)

  /** What `ping` resolves to: a boolean, or, when the body was falsy, that
      falsy body itself. */
  datatype PingValue = Flag(ok: bool) | FalsyValue

  class LunataskApi {
    static const BaseUrl: string := Http.BaseUrl

    const tasks: TasksApi
    const accessToken: string

    constructor(accessToken: string)
      ensures this.accessToken == accessToken && tasks.accessToken == accessToken
      ensures fresh(tasks)
    {
      this.accessToken := accessToken;
      tasks := new TasksApi(accessToken);
    }

    /** The task client was built with the facade's own token. */
    predicate SharesToken() {
      tasks.accessToken == accessToken
    }

    /** `ping()`: GET `<baseUrl>/ping` with the facade's bearer token. */
    function PingRequest(): (req: Request)
      ensures req.verb == Get && req.url == BaseUrl + "/ping"
      ensures Authorized(req, accessToken) && req.headers.Keys == {"Authorization"}
      ensures req.params == map[] && req.body.None?
    {
      Request(Get, BaseUrl + "/ping", BearerHeaders(accessToken), map[], None)
    }
  }

  /** `error instanceof AxiosError && error.response && error.response.status === 401` */
  predicate IsUnauthorizedFailure(t: Thrown) {
    t.Transport? && t.axios.response.Some? && t.axios.response.value.status == Some(401)
  }

  /** What `ping` resolves to or throws, given how its request settled. */
  function PingResult(outcome: Settled<PingBody>): (r: Completion<PingValue>)
    ensures r == Returns(Flag(true)) <==> outcome == Resolved(PingData(Some("pong")))
    ensures r == Returns(FalsyValue) <==> outcome == Resolved(FalsyData)
    ensures outcome.Rejected? ==> (r.Returns? <==> IsUnauthorizedFailure(outcome.reason))
    ensures outcome.Rejected? && r.Returns? ==> r.value == Flag(false)
    ensures r.Throws? ==> outcome.Rejected? && r.error == HandleError(outcome.reason)
  {
    match outcome
    case Resolved(FalsyData) => Returns(FalsyValue)
    case Resolved(PingData(message)) => Returns(Flag(message == Some("pong")))
    case Rejected(reason) =>
      if IsUnauthorizedFailure(reason) then Returns(Flag(false)) else Throws(HandleError(reason))
  }

  /** A 401 from the transport is reported as `false` and never thrown as
      `UnauthorizedError`; `ping` throws that error only when the call itself
      threw an `UnauthorizedError` rather than an `AxiosError`. */
  lemma PingNeverThrowsUnauthorizedFor401(outcome: Settled<PingBody>)
    ensures outcome.Rejected? && IsUnauthorizedFailure(outcome.reason) ==> PingResult(outcome) == Returns(Flag(false))
    ensures PingResult(outcome) == Throws(Api(Unauthorized)) ==> outcome == Rejected(Raised(Api(Unauthorized)))
  {
  }

  /** Any other documented status is thrown as its own error: a 500 throws
      `InternalServerError`. */
  lemma PingThrowsOtherStatuses(c: ApiErrorCode, message: string)
    requires c != Unauthorized
    ensures PingResult(Rejected(StatusFailure(c.Code(), message))) == Throws(Api(c))
  {
  }

  /** Every request the facade and its task client send carries the same
      credential, and every URL lies under the base URL. */
  lemma SharedCredential(api: LunataskApi, taskId: string, source: Option<string>, sourceId: Option<string>,
                         create: CreateTaskParams, update: TaskWithUpdateParams)
    requires api.SharesToken()
    ensures Authorized(api.PingRequest(), api.accessToken)
    ensures Authorized(api.tasks.RetrieveAllRequest(source, sourceId), api.accessToken)
    ensures Authorized(api.tasks.RetrieveSingleRequest(taskId), api.accessToken)
    ensures Authorized(api.tasks.CreateTaskRequest(create), api.accessToken)
    ensures Authorized(api.tasks.UpdateTaskRequest(taskId, update), api.accessToken)
    ensures Authorized(api.tasks.DeleteTaskRequest(taskId), api.accessToken)
    ensures BaseUrl <= api.PingRequest().url && BaseUrl <= api.tasks.RetrieveSingleRequest(taskId).url
    ensures BaseUrl <= api.tasks.RetrieveAllRequest(source, sourceId).url
    ensures BaseUrl <= api.tasks.CreateTaskRequest(create).url
    ensures BaseUrl <= api.tasks.UpdateTaskRequest(taskId, update).url
    ensures BaseUrl <= api.tasks.DeleteTaskRequest(taskId).url
  {
  }
}
