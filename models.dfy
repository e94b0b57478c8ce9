/** The records exchanged with callers (models/vm.go). */
module Models {
  import opened Results

  /** One VM as reported by exactly one backend. */
  datatype VM = VM(id: string, name: string, provider: string, region: string, status: string)

  /**
   * The uniform response envelope. `data` is absent on failure and `error` is empty on
   * success (the JSON fields are `omitempty`).
   */
  datatype APIResponse<+T> = APIResponse(success: bool, data: Option<T>, error: string)

  /** A failed response carrying only the error message. */
  function Failure<T>(msg: string): (r: APIResponse<T>)
    ensures !r.success && r.data.None? && r.error == msg
  {
    APIResponse(false, None, msg)
  }

  /** A successful response carrying `payload` and no error. */
  function Success<T>(payload: T): (r: APIResponse<T>)
    ensures r.success && r.data == Some(payload) && r.error == ""
  {
    APIResponse(true, Some(payload), "")
  }
}
