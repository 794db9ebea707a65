# Lunatask API client: a Dafny model of its decision layer

This project models the core of a small TypeScript client for the Lunatask task-management
API. Under its HTTP calls sits a small decision layer:

- the **error taxonomy** maps the six status codes the API documents (401, 404, 422, 500, 503
  and the Cloudflare-specific 524) to a `LunataskError` subclass with a fixed message. It
  turns any other transport failure into a plain `Error` that carries the transport's
  message. It passes any other `Error` through unchanged and wraps a non-`Error` throwable as
  `Error('Unknown error.')`.
- the **task client** (`TasksAPI`) builds one request per operation: the verb, the URL under
  `https://api.lunatask.app/v1`, the `Authorization: bearer <token>` header (section 2.1 of
  RFC 6750), a JSON Content-Type and body for POST and PUT only, and the query filters of
  `retrieveAll`. It then turns the settled call into a returned value or a thrown, handled
  error.
- the **facade** (`LunataskAPI`) hands its token to the task client and answers `ping`.

The transport is not modelled. A request is a value (`Http.Request`). How the call settled is
also a value: `Http.Settled`, either `Resolved(data)` or `Rejected(reason)`, where the reason
is an `AxiosError`, another `Error`, or a non-`Error` value. What an operation does is
`Http.Completion`: `Returns(value)` or `Throws(error)`.

Modules: `Wrappers` (Option), `Types` (the task and payload datatypes of `types.ts` and
`dto.ts`), `Decimal` (the integer-to-text conversion of a template literal), `Errors`,
`Http`, `Tasks` and `Lunatask`.

Where the code's behaviour differs from its declared types (`ping(): Promise<boolean>`,
`retrieveSingle(): Promise<Task>`) or from what one might expect, the model follows the code:
- `handleError` passes through every non-transport `Error`, not only the library's own errors.
- `ping` returns a falsy body (`null`, `""`, `0`, `false`, ...) as is, which is not always a
  boolean. This is `PingValue.FalsyValue`. For a JSON `false` body that value is `false`
  itself, which a caller cannot tell from the other `false` results.
- `ping`'s `false` does not imply a 401. It also resolves to `false` when the server answers
  with a truthy body whose `message` is not "pong". A caller cannot conclude from `false`
  that the credential was rejected.
- `retrieveSingle`, `updateTask` and `deleteTask` do not check the envelope. A missing `task`
  makes them return `undefined`. Only `createTask` turns a missing `task` into `null`. The
  model tells the two apart with `Types.Nullable` (`Undefined`, `Null`, `Defined`).

## Model

| member | source | states |
|---|---|---|
| `Errors.FromCode` | src/lunatask/errors.ts:3-11 | the enum member with a given value, if any, is exactly the inverse of the member-to-code mapping |
| `Errors.KindsDistinct` | src/lunatask/errors.ts:20-60 | the six error kinds have pairwise distinct codes, class names and messages |
| `Errors.GetErrorCode` | src/lunatask/errors.ts:77-84 | returns the response status exactly when it is present and is one of the six codes; otherwise undefined (no response, absent or zero status, unmapped status) |
| `Errors.GetErrorFromCode` | src/lunatask/errors.ts:104-120 | a mapped code gives the `LunataskError` subclass whose code it is, with that subclass's name and fixed message; any other value gives a plain `Error` "Unknown error code: <code>", which is not a `LunataskError` |
| `Errors.GetErrorFromCodeInjective` | src/lunatask/errors.ts:104-120 | different codes, mapped or not, never give the same error |
| `Errors.GetErrorFromResponse` | src/lunatask/errors.ts:86-92 | the result is a `LunataskError` exactly when the status is mapped, and then the subclass of that status; otherwise a plain `Error` with the transport's own message |
| `Errors.HandleError` | src/lunatask/errors.ts:94-102 | transport failures go through the status mapping, any other `Error` is returned unchanged, a non-`Error` becomes `Error('Unknown error.')` |
| `Errors.HandleErrorIdempotent` | src/lunatask/errors.ts:94-102 | handling an already-handled error changes nothing |
| `Errors.HandleTransportFailure` | src/lunatask/errors.ts:95-96 | a transport failure becomes a `LunataskError` exactly when its status is one of the six codes, and then the subclass for that code |
| `Decimal.NatToString` | src/lunatask/errors.ts:119 | the decimal text of a natural number is non-empty, all digits, without a leading zero |
| `Decimal.NatToStringRoundTrip` | src/lunatask/errors.ts:119 | reading the decimal text back gives the number |
| `Decimal.IntToString` | src/lunatask/errors.ts:119 | the text of an integer starts with '-' exactly when it is negative, and the rest is the decimal digits of its magnitude without a leading zero (reading them back gives the magnitude) |
| `Decimal.IntToStringInjective` | src/lunatask/errors.ts:119 | distinct integers print differently, so the unknown-code message identifies the code |
| `Tasks.ItemUrlInjective` | src/lunatask/tasksAPI.ts:49 | the item URL names exactly one task id |
| `Tasks.TaskUrlsUnderBase` | src/lunatask/tasksAPI.ts:29 | the collection and item URLs start with the base URL, and an item URL extends the collection URL |
| `Tasks.RetrieveAllQuery` | src/lunatask/tasksAPI.ts:25-27 | `source` and `source_id` are in the query exactly when given and non-empty, with the given values; no other key and no empty value |
| `Tasks.RetrieveAllQueryUnfiltered` | src/lunatask/tasksAPI.ts:25-27 | with no truthy filter the query is empty |
| `Tasks.TasksApi.constructor` | src/lunatask/tasksAPI.ts:8-12 | the client keeps the token it was given |
| `Tasks.TasksApi.RetrieveAllRequest` | src/lunatask/tasksAPI.ts:29-32 | GET `<base>/tasks` with only the bearer header, the filter query and no body |
| `Tasks.TasksApi.BuildRetrieveAllRequest` | src/lunatask/tasksAPI.ts:25-32 | building the query by conditional assignment gives exactly that request |
| `Tasks.TasksApi.RetrieveSingleRequest` | src/lunatask/tasksAPI.ts:49-51 | GET `<base>/tasks/<id>` with only the bearer header, no query, no body |
| `Tasks.TasksApi.CreateTaskRequest` | src/lunatask/tasksAPI.ts:68-73 | POST `<base>/tasks` with the bearer header and JSON Content-Type, the parameters unchanged as body |
| `Tasks.TasksApi.UpdateTaskRequest` | src/lunatask/tasksAPI.ts:93-98 | PUT `<base>/tasks/<id>` with the bearer header and JSON Content-Type, the parameters unchanged as body |
| `Tasks.TasksApi.DeleteTaskRequest` | src/lunatask/tasksAPI.ts:115-117 | DELETE `<base>/tasks/<id>` with only the bearer header, no query, no body |
| `Tasks.OnlyMutationsSendJson` | src/lunatask/tasksAPI.ts:68-73 | only the POST and PUT requests carry the JSON Content-Type and a body, and that body is the caller's parameters unchanged; GET and DELETE send no body |
| `Tasks.RetrieveAllResult` | src/lunatask/tasksAPI.ts:34-37 | a resolved call returns the envelope's `tasks` unchanged, in order and possibly empty; a failure throws `handleError` of it |
| `Tasks.TaskResult` | src/lunatask/tasksAPI.ts:53-56 | `retrieveSingle`, `updateTask` and `deleteTask` return the envelope's `task` as it is, so `undefined` when it is missing; a failure throws `handleError` of it |
| `Tasks.CreateTaskResult` | src/lunatask/tasksAPI.ts:74-80 | returns the created task when the envelope has one, `null` exactly when the call succeeded without one, never `undefined`, and throws `handleError` of any failure, so "nothing created" and "failed" stay apart |
| `Tasks.CreateTaskDiffersOnlyOnMissingTask` | src/lunatask/tasksAPI.ts:74-77 | `createTask` and the other single-item operations return the same thing except when `task` is missing: then `createTask` returns `null` and the others `undefined` |
| `Tasks.MappedStatusThrowsTypedError` | src/lunatask/tasksAPI.ts:78-80 | a documented status makes every operation throw that status's own error (a 401 while creating throws `UnauthorizedError`, not `null`) |
| `Lunatask.LunataskApi.constructor` | src/lunatask/api.ts:16-19 | the facade and its task client hold the same token |
| `Lunatask.LunataskApi.PingRequest` | src/lunatask/api.ts:27-29 | GET `<base>/ping` with only the facade's bearer header |
| `Lunatask.PingResult` | src/lunatask/api.ts:25-37 | `true` exactly when the body's `message` is "pong"; a falsy body is returned as is; `false` for a truthy body whose `message` is not "pong", and, among failures, exactly for a transport 401; any other failure throws `handleError` of it |
| `Lunatask.PingNeverThrowsUnauthorizedFor401` | src/lunatask/api.ts:33-36 | a transport 401 is reported as `false`; `ping` throws `UnauthorizedError` only if the call threw that error itself |
| `Lunatask.PingThrowsOtherStatuses` | src/lunatask/api.ts:36 | any other documented status is thrown as its own error (a 500 throws `InternalServerError`) |
| `Lunatask.SharedCredential` | src/lunatask/api.ts:16-19 | every request of the facade and of its task client carries the facade's token, and every URL starts with the base URL |

## Left out

- The axios transport, `async`/`await` and the network: a request is a value and its settled outcome is an input.
- JSON encoding of bodies and decoding of responses: bodies are already-typed values with the expected envelope. Two paths are therefore not modelled. A `null` or `undefined` body makes the property access throw a `TypeError`, which `handleError` passes through unchanged. An object or string body without `tasks` makes `retrieveAll` return `undefined`. A body without `task` is modelled, as `Undefined`.
- Non-integer numbers: `estimate` is an integer, and `Decimal.IntToString` covers only integer codes below 10^21 in magnitude, not JavaScript's fraction or exponent formatting.
- `TaskEntity` (src/lunatask/types.ts:78-80): a structural copy that the client logic never uses.
- `TaskUpdateParams` (src/lunatask/dto.ts:27-30): declared but used by no operation.
- The server's duplicate detection on (source, source_id): the client only observes its result, a missing `task`, which `Tasks.CreateTaskResult` covers.
- Stack traces and other runtime properties of JavaScript `Error` objects: an error is its class, name and message.
