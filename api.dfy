/**
 * What every handler shares: document ids, the authenticated caller that the
 * token middleware attaches to a request, the HTTP status codes the handlers
 * answer with, and the shape of a read-only handler's answer.
 */
module Api {

  /** A MongoDB ObjectId. Malformed ids (which make a lookup throw) are not modelled. */
  type ObjectId = nat

  /** `req.user`: the id and admin flag decoded from the access token. */
  datatype Caller = Caller(id: ObjectId, isAdmin: bool)

  const Ok := 200
  const Created := 201
  const BadRequest := 400
  const Unauthorized := 401
  const Forbidden := 403
  const NotFound := 404
  const Conflict := 409
  const ServerError := 500

  /** The single response a read-only handler sends: a status with a body, or an error status. */
  datatype Outcome<+T> = Success(status: int, value: T) | Failure(status: int)
}
