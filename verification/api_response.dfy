/** `ApiResponse` (`lib/ApiResponse.ts`): the `{success, message, data}`
    envelope. */
module ApiResponses {
  import opened Optional
  import opened Js

  datatype ApiResponse = ApiResponse(success: bool, message: string, data: Value)

  /** `new ApiResponse(success, message, data)`; each argument left
      `undefined` takes its default: `true`, `"Success"`, `null`. */
  function NewApiResponse(success: Option<bool>, message: Option<string>, data: Value): (r: ApiResponse)
    ensures success.None? ==> r.success
    ensures success.Some? ==> r.success == success.value
    ensures message.None? ==> r.message == "Success"
    ensures message.Some? ==> r.message == message.value
    ensures data.Undefined? ==> r.data == Null
    ensures !data.Undefined? ==> r.data == data
  {
    ApiResponse(success.OrDefault(true), message.OrDefault("Success"),
                if data.Undefined? then Null else data)
  }

  /** The envelope as the JSON object `NextResponse.json` serializes. */
  function ToValue(r: ApiResponse): (v: Value)
    ensures v.Obj? && v.fields.Keys == {"success", "message", "data"}
    ensures v.fields["success"] == Bool(r.success)
    ensures v.fields["message"] == Str(r.message)
    ensures v.fields["data"] == r.data
  {
    Obj(map["success" := Bool(r.success), "message" := Str(r.message), "data" := r.data])
  }

  /** A constructed envelope never holds `undefined`, so its `data` field
      survives serialization. */
  lemma NewApiResponseDefined(success: Option<bool>, message: Option<string>, data: Value)
    ensures !NewApiResponse(success, message, data).data.Undefined?
  {
  }
}
