/** What a route handler sends back: a status code with a JSON payload or an error message. */
module Http {

  const OK := 200
  const CREATED := 201
  const BAD_REQUEST := 400
  const UNAUTHORIZED := 401
  const NOT_FOUND := 404
  const CONFLICT := 409

  /** `res.status(status).json(value)` or `res.status(status).json({ error: message })`. */
  datatype Reply<+T> = Ok(status: int, value: T) | Error(status: int, message: string)
}
