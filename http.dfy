/**
 * The HTTP side of a handler's result: Iron's status codes and the response a
 * handler returns (status, optional Content-Type header, body).
 */
module Http {
  import opened Wrappers
  import opened Protocol

  datatype Status =
    | Ok
    | Created
    | NoContent
    | BadRequest
    | Unauthorized
    | NotFound
    | RequestTimeout
    | Conflict
    | InternalServerError
    | BadGateway
    | ServiceUnavailable
  {
    /** The numeric status code sent on the wire. */
    function Code(): nat {
      match this
      case Ok => 200
      case Created => 201
      case NoContent => 204
      case BadRequest => 400
      case Unauthorized => 401
      case NotFound => 404
      case RequestTimeout => 408
      case Conflict => 409
      case InternalServerError => 500
      case BadGateway => 502
      case ServiceUnavailable => 503
    }
  }

  /** `application/json`, the only media type the handlers set. */
  datatype Mime = ApplicationJson

  /**
   * A value a handler renders as JSON. The JSON encoding itself (`to_json`,
   * `json::encode`) is not part of this model: a body `Json(p)` stands for the
   * encoding of `p`.
   */
  datatype Payload =
    | ErrorPayload(err: NetError)
    | SessionPayload(session: Session)
    | JobPayload(job: Job)
    | ProjectPayload(project: Project)
    | InvitationsPayload(invitations: AccountInvitationListResponse)
    | OriginsPayload(origins: AccountOriginListResponse)

  datatype Body = Empty | Text(text: string) | Json(payload: Payload)

  datatype Response = Response(status: Status, contentType: Option<Mime>, body: Body)

  /** `Response::with(status)`: a status alone, no header, no body. */
  function Bare(status: Status): (r: Response)
    ensures r.status == status && r.contentType == None && r.body == Empty
  {
    Response(status, None, Empty)
  }

  /** `Response::with((status, "text"))`: a plain string body and no Content-Type header. */
  function WithText(status: Status, text: string): (r: Response)
    ensures r.status == status && r.contentType == None && r.body == Text(text)
  {
    Response(status, None, Text(text))
  }
}
