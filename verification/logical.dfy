/** The shapes of Vault's `logical` package that the handlers build:
    loosely typed data maps, a secret with its lease, a response, and the
    (response, error) pair every handler returns. */
module Logical {
  import opened Wrappers
  import opened GoTime

  /** The values the handlers put into an `interface{}`-typed map. */
  datatype Value = Str(s: string) | Int(i: int)

  /** `logical.Secret`: the lease options the plugin sets and the internal
      data Vault keeps with the lease and hands back on renew and revoke. */
  datatype Secret = Secret(
    internalData: map<string, Value>,
    ttl: Duration,
    maxTtl: Duration,
    renewable: bool)

  /** `logical.Response`: response data and an optional secret. */
  datatype Response = Response(data: map<string, Value>, secret: Option<Secret>)

  /** What a handler returns: `(nil, nil)`, `(resp, nil)`, `(nil, err)`, or a
      Go runtime panic (a failed type assertion). */
  datatype Reply =
    | NoResponse
    | Respond(response: Response)
    | Error(message: string)
    | Panic(reason: string)

  const ErrorKey := "error"

  /** A response whose only data entry is the error text. */
  predicate IsError(r: Response) {
    r.data.Keys == {ErrorKey} && r.data[ErrorKey].Str? && r.secret.None?
  }

  /** `logical.ErrorResponse(text)`. */
  function ErrorResponse(text: string): (r: Response)
    ensures IsError(r) && r.data[ErrorKey] == Str(text)
  {
    Response(map[ErrorKey := Str(text)], None)
  }

  /** The reply is an error response carrying exactly `text`. */
  predicate RespondsError(reply: Reply, text: string) {
    reply.Respond? && IsError(reply.response) && reply.response.data[ErrorKey] == Str(text)
  }
}
