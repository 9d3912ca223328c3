/** HTTP responses as the proxy and the wrapper build them with
    `NextResponse.json`, which is `Response.json` of the Fetch standard:
    the status is converted to a WebIDL `unsigned short` (as undici
    computes it), the body is
    serialized, and the status is then checked against the accepted range
    and the statuses that may not carry a body. */
module Http {
  import opened Js
  import Text

  /** A response: its status code and its JSON body before serialization. */
  datatype Response = Response(status: int, body: Value)

  /** `response.ok`: the status is in the range 200 to 299. */
  predicate IsOk(status: int) {
    200 <= status <= 299
  }

  /** The statuses a constructed `Response` may have (200 to 599); any
      other makes the constructor throw a `RangeError`. */
  predicate Constructible(status: int) {
    200 <= status <= 599
  }

  /** The null-body statuses: a response with one of them may not carry a
      body, and `Response.json` always supplies one. */
  predicate NullBodyStatus(status: int) {
    status == 101 || status == 103 || status == 204 || status == 205 || status == 304
  }

  /** What `JSON.stringify` cannot turn into text: a bare `undefined`
      (nested `undefined`s are dropped or become `null`). */
  predicate Serializable(body: Value) {
    !body.Undefined?
  }

  /** The conversion of an integer status to `unsigned short` as undici's
      WebIDL layer performs it: the remainder by 65536 taken with
      JavaScript's `%`, which keeps the sign of the dividend. A large
      status wraps around (65736 becomes 200) while a negative one stays
      negative (-1 stays -1, -65336 stays -65336), where the WebIDL
      standard's modulo would make it non-negative. */
  function UnsignedShort(n: int): (c: int)
    ensures -65536 < c < 65536
    ensures (n - c) % 65536 == 0
    ensures n >= 0 ==> c >= 0
    ensures n < 0 ==> c <= 0
    ensures -65536 < n < 65536 ==> c == n
  {
    if n >= 0 then n % 65536 else -((-n) % 65536)
  }

  /** The `RangeError` for a status outside 200 to 599 (undici's wording). */
  function StatusRangeError(): (e: Thrown)
    ensures e.message.Some? && e.message.value != ""
    ensures Text.StartsWith(e.text, "RangeError: ")
  {
    ErrorOf("RangeError", "init[\"status\"] must be in the range of 200 to 599, inclusive.")
  }

  /** The `TypeError` for a null-body status (undici's wording). */
  function NullBodyError(status: nat): (e: Thrown)
    ensures e.message.Some? && e.message.value != ""
    ensures Text.StartsWith(e.text, "TypeError: ")
  {
    ErrorOf("TypeError", "Response constructor: Invalid response status code " + Text.Decimal(status))
  }

  /** The `TypeError` for a body `JSON.stringify` turns into `undefined`. */
  function NotSerializableError(): (e: Thrown)
    ensures e.message.Some? && e.message.value != ""
    ensures Text.StartsWith(e.text, "TypeError: ")
  {
    ErrorOf("TypeError", "Value is not JSON serializable")
  }

  /** The outcome of building a response: the response, or what the
      construction threw. */
  datatype Built = Built(response: Response) | BuildFailed(failure: Thrown)

  /** `NextResponse.json(body, {status})`. It builds a response exactly when
      the body serializes and the converted status is accepted and allows a
      body; the response then has the converted status. */
  function JsonResponse(body: Value, status: int): (b: Built)
    ensures b.Built? <==>
              Serializable(body) && Constructible(UnsignedShort(status)) && !NullBodyStatus(UnsignedShort(status))
    ensures b.Built? ==> b.response == Response(UnsignedShort(status), body)
    ensures !Serializable(body) ==> b == BuildFailed(NotSerializableError())
    ensures Serializable(body) && !Constructible(UnsignedShort(status)) ==> b == BuildFailed(StatusRangeError())
    ensures (Serializable(body) && Constructible(UnsignedShort(status)) && NullBodyStatus(UnsignedShort(status))) ==>
              b == BuildFailed(NullBodyError(UnsignedShort(status)))
  {
    var code := UnsignedShort(status);
    if !Serializable(body) then BuildFailed(NotSerializableError())
    else if !Constructible(code) then BuildFailed(StatusRangeError())
    else if NullBodyStatus(code) then BuildFailed(NullBodyError(code))
    else Built(Response(code, body))
  }

  /** A JSON body `{error: message}`. */
  function ErrorBody(message: string): (v: Value)
    ensures v.Obj? && v.fields.Keys == {"error"} && v.fields["error"] == Str(message)
  {
    Obj(map["error" := Str(message)])
  }
}
