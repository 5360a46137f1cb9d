/** What a handler sends back: `res.status(code).json(body)` on success, or
    `res.status(code).json({ message })` on an error. */
module Http {

  datatype Response<+T> = Success(code: nat, body: T) | Failure(code: nat, message: string)

  const Ok: nat := 200
  const Created: nat := 201
  const BadRequest: nat := 400
  const Unauthorized: nat := 401
  const Forbidden: nat := 403
  const NotFound: nat := 404
  const ServerError: nat := 500
}
