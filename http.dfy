/**
 * Outgoing HTTP GETs as the handlers see them: a URL with a query, and an
 * outcome that is a transport error, or a status with a body that could not
 * be read, could not be decoded, or decoded to a value.
 */
module Http {
  import opened Wrappers
  import opened UrlValues

  const StatusOK: int := 200

  /** A GET of `url` with its query replaced by `query`. */
  datatype Request = Request(url: string, query: Entries)

  datatype Body<+T> = ReadError(err: string) | DecodeError(err: string) | Decoded(value: T)

  datatype HttpResult<+T> = TransportError(err: string) | Response(status: int, body: Body<T>)

  /** A fetch the handlers go on with: status 200 and a body that decoded. */
  predicate Succeeded<T>(r: HttpResult<T>)
  {
    r.Response? && r.status == StatusOK && r.body.Decoded?
  }

  /**
   * The error a handler returns on a failed fetch (`None` is Go's nil). The
   * guard `err != nil || StatusCode != 200` returns `err`, which is nil
   * exactly when the transport succeeded with a status other than 200.
   */
  function FailureError<T>(r: HttpResult<T>): (e: Option<string>)
    requires !Succeeded(r)
    ensures e.None? <==> (r.Response? && r.status != StatusOK)
    ensures r.TransportError? ==> e == Some(r.err)
    ensures r.Response? && r.status == StatusOK && !r.body.Decoded? ==> e == Some(r.body.err)
  {
    match r
    case TransportError(err) => Some(err)
    case Response(status, body) =>
      if status != StatusOK then None
      else
        match body
        case ReadError(err) => Some(err)
        case DecodeError(err) => Some(err)
  }
}
