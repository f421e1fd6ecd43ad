/** `success_response` (backend/app/common/utils.py lines 21-38). */
module Responses {
  import opened Wrappers

  /** A value in the response dictionary; `D` is the caller's payload (a dict or a list). */
  datatype Value<D> = Bool(b: bool) | Str(s: string) | Null | Data(payload: D)

  /** The JSON value of an optional message: `None` becomes `null`. */
  function MessageValue<D>(message: Option<string>): Value<D>
  {
    if message.Some? then Str(message.value) else Null
  }

  /**
   * The standard success body: always `success = True` and the message; the
   * payload under `data` only when one is given (an empty dict or list
   * counts as given).  The status code is accepted and not used.
   */
  function SuccessResponse<D>(message: Option<string>, data: Option<D>, statusCode: int): (r: map<string, Value<D>>)
    ensures "success" in r && r["success"] == Bool(true)
    ensures "message" in r && r["message"] == MessageValue(message)
    ensures "data" in r <==> data.Some?
    ensures data.Some? ==> r["data"] == Data(data.value)
    ensures r.Keys <= {"success", "message", "data"}
  {
    var response := map["success" := Bool(true), "message" := MessageValue(message)];
    if data.Some? then response["data" := Data(data.value)] else response
  }

  /** The response does not depend on the status code. */
  lemma SuccessResponseIgnoresStatus<D>(message: Option<string>, data: Option<D>, code1: int, code2: int)
    ensures SuccessResponse(message, data, code1) == SuccessResponse(message, data, code2)
  {
  }
}
