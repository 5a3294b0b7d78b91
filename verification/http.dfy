/** The Express responses the controllers send: a status code and a JSON body. */
module Http {
  import opened DocStore

  datatype Body<+T> =
    | Json(value: T)                                     // `res.json(entity)`
    | ErrorEnvelope(error: string, details: ServiceError) // `{ error, details }` of a caught failure
    | ErrorOnly(error: string)                           // `{ error }` of a rejected request
    | NoContent                                          // `res.status(204).send()`

  datatype Response<+T> = Response(status: int, body: Body<T>)

  /** What every handler's `catch` block sends: 500 with the error envelope. */
  function ServerError<T>(message: string, err: ServiceError): Response<T> {
    Response(500, ErrorEnvelope(message, err))
  }
}
