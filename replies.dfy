/** What an HTTP handler answers: a status with a body, or a status with an error message. */
module Replies {

  datatype Reply<T> = Ok(status: int, value: T) | Err(status: int, error: string)

  const Unauthorized := "Unauthorized"
}
