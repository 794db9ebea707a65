/**
 * The error taxonomy of the Lunatask client (src/lunatask/errors.ts): the six
 * status codes the API documents, the `LunataskError` hierarchy with one
 * subclass per code, and the functions that turn whatever a call threw into
 * an `Error`.
 */
module Errors {
  import opened Wrappers
  import opened Decimal

  /** `ApiErrorCodes`: 401, 404, 422 (sections 15.5.2, 15.5.5 and 15.5.21 of
      RFC 9110), 500, 503 (sections 15.6.1 and 15.6.4) and 524, a Cloudflare
      status for a timed-out origin. */
  datatype ApiErrorCode =
    | Unauthorized
    | NotFound
    | UnprocessableEntity
    | InternalServerError
    | ServiceUnavailable
    | RequestTimedOut
  {
    function Code(): int {
      match this
      case Unauthorized => 401
      case NotFound => 404
      case UnprocessableEntity => 422
      case InternalServerError => 500
      case ServiceUnavailable => 503
      case RequestTimedOut => 524
    }

    /** The `name` of the subclass raised for this code. */
    function ClassName(): string {
      match this
      case Unauthorized => "UnauthorizedError"
      case NotFound => "NotFoundError"
      case UnprocessableEntity => "UnprocessableEntityError"
      case InternalServerError => "InternalServerError"
      case ServiceUnavailable => "ServiceUnavailableError"
      case RequestTimedOut => "RequestTimedOutError"
    }

    /** The fixed `message` of the subclass raised for this code. */
    function Message(): string {
      match this
      case Unauthorized => "Your access token is missing, is wrong, or was revoked."
      case NotFound => "The specified entity could not be found."
      case UnprocessableEntity => "The provided entity is not valid. Check what data you are sending."
      case InternalServerError => "We encountered a problem processing your request and have been notified."
      case ServiceUnavailable => "We're temporarily offline for maintenance. Please, try again later."
      case RequestTimedOut => "Please, try again."
    }
  }

  /** The enum member whose value is `n`, if any: the inverse of `Code`. */
  function FromCode(n: int): (r: Option<ApiErrorCode>)
    ensures forall c: ApiErrorCode :: r == Some(c) <==> c.Code() == n
  {
    if n == 401 then Some(Unauthorized)
    else if n == 404 then Some(NotFound)
    else if n == 422 then Some(UnprocessableEntity)
    else if n == 500 then Some(InternalServerError)
    else if n == 503 then Some(ServiceUnavailable)
    else if n == 524 then Some(RequestTimedOut)
    else None
  }

  /** `n in ApiErrorCodes`: `n` is the value of one of the enum's members. */
  predicate IsApiErrorCode(n: int) {
    FromCode(n).Some?
  }

  /** The six kinds are told apart by code, by class name and by message. */
  lemma KindsDistinct(a: ApiErrorCode, b: ApiErrorCode)
    requires a != b
    ensures a.Code() != b.Code()
    ensures a.ClassName() != b.ClassName()
    ensures a.Message() != b.Message()
  {
  }

  /**
   * A value that is an instance of `Error` and not an `AxiosError`.
   * `Generic` is any such value outside the `LunataskError` hierarchy
   * (`new Error(m)` has name "Error"); `Base` is a `LunataskError` built
   * directly with a message; `Api` is one of the six subclasses, whose
   * message is fixed by its code.
   */
  datatype Error =
    | Generic(name: string, message: string)
    | Base(baseMessage: string)
    | Api(kind: ApiErrorCode)
  {
    /** `instanceof LunataskError`: the hierarchy has a single root. */
    predicate IsLunataskError() {
      Base? || Api?
    }

    function Name(): string {
      match this
      case Generic(n, _) => n
      case Base(_) => "LunataskError"
      case Api(k) => k.ClassName()
    }

    function Message(): string {
      match this
      case Generic(_, m) => m
      case Base(m) => m
      case Api(k) => k.Message()
    }
  }

  /** `new Error(message)`. */
  function PlainError(message: string): Error {
    Generic("Error", message)
  }

  /** The `response` of a failed request; its `status` may be missing. */
  datatype ErrorResponse = ErrorResponse(status: Option<int>)

  /** An `AxiosError`: `response` is `None` when no response arrived. */
  datatype AxiosError = AxiosError(response: Option<ErrorResponse>, message: string)

  /** Whatever a call may throw: an `AxiosError` raised by the transport,
      another `Error`, or a value that is not an `Error` at all. */
  datatype Thrown = Transport(axios: AxiosError) | Raised(error: Error) | NonError

  /** `error.response?.status`, with a missing response read as a missing status. */
  function ResponseStatus(ax: AxiosError): Option<int> {
    if ax.response.Some? then ax.response.value.status else None
  }

  /** `getErrorCode`: the status when it is truthy and a member of `ApiErrorCodes`. */
  function GetErrorCode(ax: AxiosError): (r: Option<int>)
    ensures r.Some? ==> ResponseStatus(ax) == Some(r.value) && IsApiErrorCode(r.value)
    ensures r.None? ==> ResponseStatus(ax).None? || !IsApiErrorCode(ResponseStatus(ax).value)
  {
    if ax.response.Some? && ax.response.value.status.Some? && ax.response.value.status.value != 0 then
      var status := ax.response.value.status.value;
      if IsApiErrorCode(status) then Some(status) else None
    else
      None
  }

  /** `getErrorFromCode`: one dedicated subclass per documented code. */
  function GetErrorFromCode(code: int): (e: Error)
    ensures e.IsLunataskError() <==> IsApiErrorCode(code)
    ensures IsApiErrorCode(code) ==> e.Api? && e.kind.Code() == code
    ensures IsApiErrorCode(code) ==> e.Name() == FromCode(code).value.ClassName() && e.Message() == FromCode(code).value.Message()
    ensures !IsApiErrorCode(code) ==> e.Name() == "Error"
    ensures !IsApiErrorCode(code) ==> e == PlainError("Unknown error code: " + IntToString(code))
  {
    match FromCode(code)
    case Some(kind) => Api(kind)
    case None => PlainError("Unknown error code: " + IntToString(code))
  }

  /** Different codes never give the same error, mapped or not. */
  lemma GetErrorFromCodeInjective(a: int, b: int)
    requires GetErrorFromCode(a) == GetErrorFromCode(b)
    ensures a == b
  {
    if !IsApiErrorCode(a) && !IsApiErrorCode(b) {
      var prefix := "Unknown error code: ";
      assert (prefix + IntToString(a))[|prefix|..] == IntToString(a);
      assert (prefix + IntToString(b))[|prefix|..] == IntToString(b);
      IntToStringInjective(a, b);
    }
  }

  /** `getErrorFromResponse`: the typed error for a mapped status, and
      otherwise a plain `Error` carrying the transport's own message. */
  function GetErrorFromResponse(ax: AxiosError): (e: Error)
    ensures e.IsLunataskError() <==> GetErrorCode(ax).Some?
    ensures GetErrorCode(ax).Some? ==> e.Api? && ResponseStatus(ax) == Some(e.kind.Code())
    ensures GetErrorCode(ax).None? ==> e == PlainError(ax.message)
    ensures GetErrorCode(ax).None? ==> e.Name() == "Error" && e.Message() == ax.message
  {
    match GetErrorCode(ax)
    case Some(code) => GetErrorFromCode(code)
    case None => PlainError(ax.message)
  }

  /** `handleError`. */
  function HandleError(t: Thrown): (e: Error)
    ensures t.Transport? ==> e == GetErrorFromResponse(t.axios)
    ensures t.Raised? ==> e == t.error
    ensures t.NonError? ==> e == PlainError("Unknown error.")
  {
    match t
    case Transport(ax) => GetErrorFromResponse(ax)
    case Raised(err) => err
    case NonError => PlainError("Unknown error.")
  }

  /** What `handleError` returns is never an `AxiosError`, so handling it
      again changes nothing. */
  lemma HandleErrorIdempotent(t: Thrown)
    ensures HandleError(Raised(HandleError(t))) == HandleError(t)
  {
  }

  /** A transport failure yields a `LunataskError` exactly when its status is
      one of the six codes, and then the subclass for that code. */
  lemma HandleTransportFailure(ax: AxiosError)
    ensures HandleError(Transport(ax)).IsLunataskError() <==>
            ResponseStatus(ax).Some? && IsApiErrorCode(ResponseStatus(ax).value)
    ensures forall c: ApiErrorCode :: ResponseStatus(ax) == Some(c.Code()) ==> HandleError(Transport(ax)) == Api(c)
  {
  }
}
