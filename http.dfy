/** The HTTP results the modelled handlers produce. */
module Http {
  const OK: int := 200
  const Created: int := 201
  const NoContent: int := 204
  const BadRequest: int := 400
  const Unauthorized: int := 401
  const Forbidden: int := 403
  const NotFound: int := 404

  /** An error response: status code, the `detail` of its JSON body, and its headers. */
  datatype ErrorResponse = ErrorResponse(status: int, detail: string, headers: map<string, string>)

  /** The header every 401 response carries. */
  const BearerChallenge: map<string, string> := map["WWW-Authenticate" := "Bearer"]

  function Challenge(detail: string): (r: ErrorResponse)
    ensures r.status == Unauthorized && r.detail == detail && r.headers == BearerChallenge
  {
    ErrorResponse(Unauthorized, detail, BearerChallenge)
  }
}
