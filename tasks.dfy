/**
 * The task resource client (src/lunatask/tasksAPI.ts). Each of the five
 * operations is modelled as the request it builds from its arguments and the
 * credential fixed at construction, and as the function that turns the
 * settled transport call into what the operation returns or throws.
 */
module Tasks {
  import opened Wrappers
  import opened Types
  import opened Errors
  import opened Http

  /** `<baseUrl>/tasks` */
  function CollectionUrl(): string {
    BaseUrl + "/tasks"
  }

  /** `<baseUrl>/tasks/<taskId>` */
  function ItemUrl(taskId: string): string {
    BaseUrl + "/tasks/" + taskId
  }

  /** An item URL names exactly one task. */
  lemma ItemUrlInjective(a: string, b: string)
    requires ItemUrl(a) == ItemUrl(b)
    ensures a == b
  {
    var prefix := BaseUrl + "/tasks/";
    assert ItemUrl(a)[|prefix|..] == a;
    assert ItemUrl(b)[|prefix|..] == b;
  }

  /** Every task URL lies under the base URL, and an item URL extends the
      collection URL. */
  lemma TaskUrlsUnderBase(taskId: string)
    ensures BaseUrl <= CollectionUrl() && BaseUrl <= ItemUrl(taskId)
    ensures CollectionUrl() < ItemUrl(taskId)
  {
  }

  /** A JavaScript truthiness test on an optional string argument. */
  predicate Truthy(s: Option<string>) {
    s.Some? && s.value != ""
  }

  /** The query of `retrieveAll`: each filter is sent only when it is given
      and non-empty. */
  function RetrieveAllQuery(source: Option<string>, sourceId: Option<string>): (q: map<string, string>)
    ensures q.Keys <= {"source", "source_id"}
    ensures "source" in q <==> Truthy(source)
    ensures "source" in q ==> q["source"] == source.value
    ensures "source_id" in q <==> Truthy(sourceId)
    ensures "source_id" in q ==> q["source_id"] == sourceId.value
    ensures forall k :: k in q ==> q[k] != ""
  {
    var withSource: map<string, string> := if Truthy(source) then map["source" := source.value] else map[];
    if Truthy(sourceId) then withSource["source_id" := sourceId.value] else withSource
  }

  /** With no filters the query is empty. */
  lemma RetrieveAllQueryUnfiltered(source: Option<string>, sourceId: Option<string>)
    requires !Truthy(source) && !Truthy(sourceId)
    ensures RetrieveAllQuery(source, sourceId) == map[]
  {
  }

  class TasksApi {
    const accessToken: string

    constructor(accessToken: string)
      ensures this.accessToken == accessToken
    {
      this.accessToken := accessToken;
    }

    /** `retrieveAll(source?, source_id?)`: GET the collection, filtered. */
    function RetrieveAllRequest(source: Option<string>, sourceId: Option<string>): (req: Request)
      ensures req.verb == Get && req.url == CollectionUrl()
      ensures Authorized(req, accessToken) && req.headers.Keys == {"Authorization"}
      ensures req.params == RetrieveAllQuery(source, sourceId)
      ensures req.body.None?
    {
      Request(Get, CollectionUrl(), BearerHeaders(accessToken), RetrieveAllQuery(source, sourceId), None)
    }

    /** The same request, with its query built by conditional assignment as
        `retrieveAll` builds it. */
    method BuildRetrieveAllRequest(source: Option<string>, sourceId: Option<string>) returns (req: Request)
      ensures req == RetrieveAllRequest(source, sourceId)
    {
      var params: map<string, string> := map[];
      if Truthy(source) {
        params := params["source" := source.value];
      }
      if Truthy(sourceId) {
        params := params["source_id" := sourceId.value];
      }
      req := Request(Get, CollectionUrl(), BearerHeaders(accessToken), params, None);
    }

    /** `retrieveSingle(taskId)`: GET one task. */
    function RetrieveSingleRequest(taskId: string): (req: Request)
      ensures req.verb == Get && req.url == ItemUrl(taskId)
      ensures Authorized(req, accessToken) && req.headers.Keys == {"Authorization"}
      ensures req.params == map[] && req.body.None?
    {
      Request(Get, ItemUrl(taskId), BearerHeaders(accessToken), map[], None)
    }

    /** `createTask(params)`: POST the parameters, unchanged, as JSON. */
    function CreateTaskRequest(params: CreateTaskParams): (req: Request)
      ensures req.verb == Post && req.url == CollectionUrl()
      ensures Authorized(req, accessToken) && SendsJson(req)
      ensures req.headers.Keys == {"Authorization", "Content-Type"}
      ensures req.params == map[] && req.body == Some(CreatePayload(params))
    {
      Request(Post, CollectionUrl(), JsonHeaders(accessToken), map[], Some(CreatePayload(params)))
    }

    /** `updateTask(taskId, params)`: PUT the parameters, unchanged, as JSON. */
    function UpdateTaskRequest(taskId: string, params: TaskWithUpdateParams): (req: Request)
      ensures req.verb == Put && req.url == ItemUrl(taskId)
      ensures Authorized(req, accessToken) && SendsJson(req)
      ensures req.headers.Keys == {"Authorization", "Content-Type"}
      ensures req.params == map[] && req.body == Some(UpdatePayload(params))
    {
      Request(Put, ItemUrl(taskId), JsonHeaders(accessToken), map[], Some(UpdatePayload(params)))
    }

    /** `deleteTask(taskId)`: DELETE one task. */
    function DeleteTaskRequest(taskId: string): (req: Request)
      ensures req.verb == Delete && req.url == ItemUrl(taskId)
      ensures Authorized(req, accessToken) && req.headers.Keys == {"Authorization"}
      ensures req.params == map[] && req.body.None?
    {
      Request(Delete, ItemUrl(taskId), BearerHeaders(accessToken), map[], None)
    }
  }

  /** Only the two mutating operations send a body and a Content-Type, and
      each sends its caller's parameters as they are. */
  lemma OnlyMutationsSendJson(api: TasksApi, source: Option<string>, sourceId: Option<string>,
                              taskId: string, create: CreateTaskParams, update: TaskWithUpdateParams)
    ensures !SendsJson(api.RetrieveAllRequest(source, sourceId))
    ensures !SendsJson(api.RetrieveSingleRequest(taskId))
    ensures !SendsJson(api.DeleteTaskRequest(taskId))
    ensures SendsJson(api.CreateTaskRequest(create)) && SendsJson(api.UpdateTaskRequest(taskId, update))
    ensures api.RetrieveAllRequest(source, sourceId).body.None?
    ensures api.RetrieveSingleRequest(taskId).body.None? && api.DeleteTaskRequest(taskId).body.None?
    ensures api.CreateTaskRequest(create).body == Some(CreatePayload(create))
    ensures api.UpdateTaskRequest(taskId, update).body == Some(UpdatePayload(update))
  {
  }

  /** `retrieveAll` returns the envelope's `tasks`, as they are, possibly empty. */
  function RetrieveAllResult(outcome: Settled<RetrieveAllResponse>): (r: Completion<seq<Task>>)
    ensures r.Returns? <==> outcome.Resolved?
    ensures r.Returns? ==> r.value == outcome.data.tasks
    ensures r.Throws? ==> r.error == HandleError(outcome.reason)
  {
    match outcome
    case Resolved(data) => Returns(data.tasks)
    case Rejected(reason) => Throws(HandleError(reason))
  }

  /** `retrieveSingle`, `updateTask` and `deleteTask` return the envelope's
      `task` without checking it: `undefined` when the server left it out,
      `null` when it sent `null`. */
  function TaskResult(outcome: Settled<TaskResponse>): (r: Completion<Nullable<Task>>)
    ensures r.Returns? <==> outcome.Resolved?
    ensures r.Returns? ==> r.value == outcome.data.task
    ensures r.Throws? ==> r.error == HandleError(outcome.reason)
  {
    match outcome
    case Resolved(data) => Returns(data.task)
    case Rejected(reason) => Throws(HandleError(reason))
  }

  /** `createTask` returns the created task, or `null` when the server created
      nothing; it never returns `undefined`, and "nothing created" is a
      success, never a failure. */
  function CreateTaskResult(outcome: Settled<TaskResponse>): (r: Completion<Nullable<Task>>)
    ensures r.Returns? ==> !r.value.Undefined?
    ensures r == Returns(Null) <==> outcome.Resolved? && !outcome.data.task.Defined?
    ensures forall t: Task :: r == Returns(Defined(t)) <==> outcome == Resolved(TaskResponse(Defined(t)))
    ensures r.Throws? <==> outcome.Rejected?
    ensures r.Throws? ==> r.error == HandleError(outcome.reason)
  {
    match outcome
    case Resolved(data) => if data.task.Defined? then Returns(data.task) else Returns(Null)
    case Rejected(reason) => Throws(HandleError(reason))
  }

  /** When the envelope has no `task`, `createTask` returns `null` while the
      other single-item operations return `undefined`; when it has one, all
      return it. */
  lemma CreateTaskDiffersOnlyOnMissingTask(outcome: Settled<TaskResponse>)
    ensures CreateTaskResult(outcome) == TaskResult(outcome) <==>
            !(outcome.Resolved? && outcome.data.task.Undefined?)
    ensures outcome == Resolved(TaskResponse(Undefined)) ==>
            CreateTaskResult(outcome) == Returns(Null) && TaskResult(outcome) == Returns(Undefined)
  {
  }

  /** The failure of the transport with status `status`. */
  function StatusFailure(status: int, message: string): Thrown {
    Transport(AxiosError(Some(ErrorResponse(Some(status))), message))
  }

  /** A documented status makes every operation throw that status's own error
      (a 401 while creating throws `UnauthorizedError`, it does not return
      `null`). */
  lemma MappedStatusThrowsTypedError(c: ApiErrorCode, message: string)
    ensures RetrieveAllResult(Rejected(StatusFailure(c.Code(), message))) == Throws(Api(c))
    ensures TaskResult(Rejected(StatusFailure(c.Code(), message))) == Throws(Api(c))
    ensures CreateTaskResult(Rejected(StatusFailure(c.Code(), message))) == Throws(Api(c))
  {
  }
}
