/**
 * What a route handler sends back: a status code, the `message` text of the
 * JSON body (empty when the body has none or carries the text of a caught
 * exception, which the model does not reproduce), and the document(s) the
 * body carries.
 */
module Http {
  import opened Wrappers

  const OK: nat := 200
  const CREATED: nat := 201
  const BAD_REQUEST: nat := 400
  const UNAUTHORIZED: nat := 401
  const FORBIDDEN: nat := 403
  const NOT_FOUND: nat := 404
  const SERVER_ERROR: nat := 500

  datatype Reply<+T> = Reply(code: nat, message: string, data: Option<T>)

  /** A reply without a document. */
  function Status<T>(code: nat, message: string): Reply<T> {
    Reply(code, message, None)
  }

  /** The `catch` branch of every handler: `res.status(500).json({ error: error.message })`. */
  function ServerError<T>(): Reply<T> {
    Reply(SERVER_ERROR, "", None)
  }
}
