/** ApiResponse<T>: the envelope every handler answers with. */
module ApiResponses {
  import opened Wrappers

  /**
   * `data` is None where `Data` is left unset: the default(T) of an ErrorResult or of a
   * data-less success. A success built with a value, false included, carries Some(value).
   */
  datatype ApiResponse<+T> = ApiResponse(success: bool, data: Option<T>, message: Option<string>, error: Option<string>)

  /** The shape both factories produce: successes carry no error, errors carry an error and no data. */
  predicate WellFormed<T>(r: ApiResponse<T>) {
    if r.success then r.error.None? else r.error.Some? && r.data.None? && r.message.None?
  }

  /** ApiResponse<T>.SuccessResult(data, message). */
  function SuccessResult<T>(data: T, message: Option<string>): (r: ApiResponse<T>)
    ensures WellFormed(r) && r.success
    ensures r.data == Some(data) && r.message == message
  {
    ApiResponse(true, Some(data), message, None)
  }

  /** ApiResponse<T>.ErrorResult(error). */
  function ErrorResult<T>(error: string): (r: ApiResponse<T>)
    ensures WellFormed(r) && !r.success
    ensures r.error == Some(error)
  {
    ApiResponse(false, None, None, Some(error))
  }

  /** The non-generic ApiResponse.SuccessResult(message): no data. */
  function Done(message: Option<string>): (r: ApiResponse<()>)
    ensures WellFormed(r) && r.success && r.data.None? && r.message == message
  {
    ApiResponse(true, None, message, None)
  }

  /** The error the handlers answer with when an exception is caught. */
  const InternalServerError := "Internal server error"

  /** A response tells its reader which factory made it. */
  lemma FactoriesDistinguishable<T>(r: ApiResponse<T>)
    requires WellFormed(r)
    ensures r.success <==> r.error.None?
    ensures !r.success ==> r == ErrorResult(r.error.value)
  {
  }
}
