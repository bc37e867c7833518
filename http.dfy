/** Values shared by every service: optional values, results, and the HTTP exceptions NestJS raises. */
module Http {

  datatype Option<+T> = None | Some(value: T)

  /** The exceptions the services throw, each with the message it carries. */
  datatype HttpError =
    | NotFound(message: string)
    | Conflict(message: string)
    | BadRequest(message: string)
    | Unauthorized(code: string, message: string)
    /** Mongoose rejecting a document that breaks its schema, naming the offending path. */
    | SchemaViolation(path: string)

  /** What an async service method resolves to (`Ok`) or rejects with (`Err`). */
  datatype Result<+T> = Ok(value: T) | Err(error: HttpError)

  /** `HttpStatus.UNAUTHORIZED`. */
  const UnauthorizedStatus: int := 401
}
