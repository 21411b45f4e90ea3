/** What a handler sends back, by the response helper it calls. */
module Responses {
  import DataErrors

  const StatusOK := 200
  const StatusCreated := 201
  const StatusNoContent := 204

  datatype Response<B> =
    | NotFound                                           // notFoundResponse
    | BadRequest(message: string)                        // badRequestResponse
    | FailedValidation(errors: map<string, seq<string>>) // failedValidationResponse
    | ServerError(cause: DataErrors.Error)               // serverErrorResponse
    | Json(status: int, body: B)                         // writeJSON
}
