/** `ApiError` (`lib/ApiError.ts`): an `Error` carrying an HTTP status and
    a `success` flag. */
module ApiErrors {
  import opened Optional

  datatype ApiError = ApiError(status: int, success: bool, message: string)

  /** `new ApiError(status, success, message)`; passing `undefined` for
      `success` (here `None`) takes the default `false`. */
  function NewApiError(status: int, success: Option<bool>, message: string): (e: ApiError)
    ensures e.status == status
    ensures e.message == message
    ensures success.None? ==> !e.success
    ensures success.Some? ==> e.success == success.value
  {
    ApiError(status, success.OrDefault(false), message)
  }
}
