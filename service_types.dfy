/** The service layer's result type (src/lib/services/types.ts). */
module ServiceTypes {
  import opened Wrappers
  import opened Json

  datatype ServiceError = ServiceError(code: string, message: string, details: Option<Json>)

  datatype ServiceResult<T> = Success(data: T) | Failure(error: ServiceError)

  /** What the datastore client reports for a failed call: the database's error code and its
      message. */
  datatype DbError = DbError(code: string, message: string)

  /** The failure a service returns for a datastore error: its own code and message, with
      the datastore's message as `details` (`details: error.message`). */
  function DbFailure<T>(code: string, message: string, cause: DbError): (r: ServiceResult<T>)
    ensures r.Failure? && r.error.code == code && r.error.message == message
    ensures r.error.details == Some(JStr(cause.message))
  {
    Failure(ServiceError(code, message, Some(JStr(cause.message))))
  }
}
