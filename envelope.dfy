/**
 * The response every handler builds: a JSON body with `message`, `method`,
 * `data` and `error` (and, in two handlers, `reason` or `meta`), plus an HTTP
 * status, 200 unless the handler names another.
 */
module Envelope {
  import opened Wrappers
  import opened Validation

  datatype HttpMethod = GET | POST | PUT

  /** The value of the `error` (or `reason`) key: `Absent` when the body has no such key, `NoError` for `null`. */
  datatype Detail = Absent | NoError | Text(text: string) | Fields(fields: FieldErrors)

  /** The pagination block of a list response. */
  datatype PageMeta = PageMeta(totalCount: nat, totalPages: nat)

  /** A response body; `verb` is the `method` key, and `data == None` is JSON `null`. */
  datatype Body<D> = Body(
    message: string,
    verb: HttpMethod,
    data: Option<D>,
    error: Detail,
    reason: Detail,
    meta: Option<PageMeta>)

  datatype Response<D> = Response(status: nat, body: Body<D>)

  /** What a handler ends with: a response, or an error that escapes it, so no envelope is sent. */
  datatype Outcome<D> = Responded(response: Response<D>) | Escaped(message: string)

  const STATUS_OK: nat := 200
  const STATUS_CREATED: nat := 201
  const STATUS_BAD_REQUEST: nat := 400
  const STATUS_UNAUTHORIZED: nat := 401
  const STATUS_NOT_FOUND: nat := 404
  const STATUS_SERVER_ERROR: nat := 500

  /** The two wordings of the catch-all failure message. */
  const TRY_AGAIN := "An error has occurred, please try again later"
  const TRY_AGAIN_SENTENCE := "An error has occurred. Please try again later."

  /** `NextResponse.json({message, verb, data, error}, {status})`. */
  function Reply<D>(status: nat, message: string, verb: HttpMethod, data: Option<D>, error: Detail): Response<D>
  {
    Response(status, Body(message, verb, data, error, Absent, None))
  }

  /** The catch block shared by the handlers: 500, no data, the thrown error's message. */
  function ServerError<D>(message: string, verb: HttpMethod, thrown: string): (r: Response<D>)
    ensures Conforms(r) && r.status == STATUS_SERVER_ERROR
    ensures r.body.data.None? && r.body.error == Text(thrown)
    ensures r.body.message == message && r.body.verb == verb && r.body.reason == Absent && r.body.meta.None?
  {
    Reply(STATUS_SERVER_ERROR, message, verb, None, Text(thrown))
  }

  /**
   * The status-code contract: one of the statuses of the outcome table; a
   * failure status carries no data and reports why (under `error`, or under
   * `reason`); a success status reports no error.
   */
  predicate Conforms<D>(r: Response<D>)
  {
    && r.status in {STATUS_OK, STATUS_CREATED, STATUS_BAD_REQUEST, STATUS_UNAUTHORIZED, STATUS_NOT_FOUND, STATUS_SERVER_ERROR}
    && (r.status >= 400 ==>
          r.body.data.None? && (r.body.error.Text? || r.body.error.Fields? || r.body.reason.Fields?))
    && (r.status < 400 ==>
          !r.body.error.Text? && !r.body.error.Fields? && r.body.reason.Absent?)
  }
}
