/** Outcomes of the backend's request handlers.
    A handler either answers with a value or fails with one of the three kinds
    of error reply the server sends: 400, 404, or 500 from the error middleware. */
module Replies {

  datatype Option<T> = None | Some(value: T)

  datatype Error =
    | BadRequest(message: string)   // 400, a message chosen by the handler
    | NotFound(message: string)     // 404, a message chosen by the handler
    | ServerError                   // 500, an exception passed on to the error middleware

  datatype Result<T> = Ok(value: T) | Err(error: Error)
}
