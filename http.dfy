/**
 * What the client hands to its HTTP transport and what it gets back. The
 * transport itself (axios, the network, JSON encoding and decoding) is not
 * modelled: a request is a value, and the settled outcome of sending it is
 * passed in as a value too.
 */
module Http {
  import opened Wrappers
  import opened Types
  import opened Errors

  /** The origin and version prefix every request goes to. */
  const BaseUrl: string := "https://api.lunatask.app/v1"

  datatype Method = Get | Post | Put | Delete

  /** `verb` is the HTTP method, `params` the query string, `body` the JSON payload (none for GET and DELETE). */
  datatype Request = Request(
    verb: Method,
    url: string,
    headers: map<string, string>,
    params: map<string, string>,
    body: Option<Payload>)

  /** How the awaited transport call settled: with the decoded response body,
      or by throwing. */
  datatype Settled<+D> = Resolved(data: D) | Rejected(reason: Thrown)

  /** How a client operation completes: it returns a value or throws an `Error`. */
  datatype Completion<+T> = Returns(value: T) | Throws(error: Error)

  /** `Authorization: bearer <token>` (section 2.1 of RFC 6750; the client
      spells the scheme in lower case). */
  predicate Authorized(req: Request, token: string) {
    "Authorization" in req.headers && req.headers["Authorization"] == "bearer " + token
  }

  predicate SendsJson(req: Request) {
    "Content-Type" in req.headers && req.headers["Content-Type"] == "application/json"
  }

  /** The headers of a request without a body. */
  function BearerHeaders(token: string): (h: map<string, string>)
    ensures h.Keys == {"Authorization"}
  {
    map["Authorization" := "bearer " + token]
  }

  /** The headers of a request with a JSON body. */
  function JsonHeaders(token: string): (h: map<string, string>)
    ensures h.Keys == {"Authorization", "Content-Type"}
  {
    BearerHeaders(token)["Content-Type" := "application/json"]
  }
}
