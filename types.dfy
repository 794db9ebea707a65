/**
 * The task resource and the request/response payload shapes of the Lunatask API
 * (src/lunatask/types.ts and src/lunatask/dto.ts). These carry no behaviour;
 * they are the values the client sends and receives. Field names are the
 * camel-case forms of the JSON keys (`area_id` is `areaId`).
 */
module Types {
  import opened Wrappers

  datatype TaskStatus = Later | Next | Started | Waiting | Completed

  /** From -2 (lowest) to 2 (highest). */
  type TaskPriority = p: int | -2 <= p <= 2

  datatype TaskMotivation = Must | Should | Want | Unknown

  /** 0 uncategorized; 1 urgent and important; 2 urgent, not important;
      3 important, not urgent; 4 neither. */
  type TaskEisenhower = e: int | 0 <= e <= 4

  /** A property typed `T | null` that may also be left out (`?: T | null`). */
  datatype Nullable<+T> = Undefined | Null | Defined(value: T)

  datatype ExternalSource = ExternalSource(source: string, sourceId: string)

  /** `goalId` is `string | null`: `None` stands for `null`. */
  datatype Task = Task(
    id: string,
    areaId: string,
    goalId: Option<string>,
    status: TaskStatus,
    previousStatus: Option<TaskStatus>,
    estimate: Option<int>,
    priority: TaskPriority,
    motivation: TaskMotivation,
    eisenhower: TaskEisenhower,
    sources: seq<ExternalSource>,
    scheduledOn: Nullable<string>,
    completedAt: Nullable<string>,
    createdAt: string,
    updatedAt: string,
    deletedAt: Nullable<string>)

  datatype CreateTaskParams = CreateTaskParams(
    areaId: string,
    goalId: Option<string>,
    name: Option<string>,
    note: Option<string>,
    status: Option<TaskStatus>,
    motivation: Option<TaskMotivation>,
    eisenhower: Option<TaskEisenhower>,
    estimate: Option<int>,
    priority: Option<TaskPriority>,
    scheduledOn: Option<string>,
    completedAt: Option<string>,
    source: Option<string>,
    sourceId: Option<string>)

  datatype TaskWithUpdateParams = TaskWithUpdateParams(
    name: Option<string>,
    note: Option<string>,
    areaId: Option<string>,
    goalId: Nullable<string>,
    status: Option<TaskStatus>,
    previousStatus: Option<TaskStatus>,
    estimate: Option<int>,
    priority: Option<TaskPriority>,
    motivation: Option<TaskMotivation>,
    eisenhower: Option<TaskEisenhower>,
    sources: Option<seq<ExternalSource>>,
    scheduledOn: Nullable<string>,
    completedAt: Nullable<string>,
    createdAt: Option<string>,
    updatedAt: Option<string>,
    deletedAt: Nullable<string>)

  /** Envelope of the collection endpoint: `{ tasks: Task[] }`. */
  datatype RetrieveAllResponse = RetrieveAllResponse(tasks: seq<Task>)

  /** Envelope of the single-item endpoints: `{ task: Task }`, where the
      server may leave `task` out (`Undefined`, a create that was a
      duplicate) or send it as `null`. */
  datatype TaskResponse = TaskResponse(task: Nullable<Task>)

  /** The JSON body of a request: the caller's parameters, unchanged. */
  datatype Payload = CreatePayload(create: CreateTaskParams) | UpdatePayload(update: TaskWithUpdateParams)
}
