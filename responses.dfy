/** The shapes the handlers answer with, and a plain optional value. */
module Responses {

  datatype Option<+T> = None | Some(value: T)

  /** What a handler writes to the response: a 200 with a body, or a
      status code and the `{error: message}` payload. */
  datatype Response<+T> = Ok(body: T) | Err(status: nat, error: string)

  const NotFound: nat := 404
  const Conflict: nat := 409
  const Unauthorized: nat := 401
  const Forbidden: nat := 403
  const ServerError: nat := 500
}
