/** `asyncHandler` (`lib/AsyncHandler.ts`): runs a route handler and turns
    whatever it returns or throws into a JSON response. The handler itself
    is abstracted to its outcome. */
module AsyncHandler {
  import opened Optional
  import opened Js
  import opened Http
  import opened ApiErrors
  import opened ApiResponses

  /** How the wrapped handler ended. */
  datatype HandlerOutcome =
    | Returned(value: Value)
    | ThrewApiError(error: ApiError)
    | ThrewOther(thrown: Thrown)

  /** What the wrapped function's promise settles to: a response, or an
      error that escaped the `catch` block. */
  datatype Delivery = Answered(response: Response) | Escaped(failure: Thrown)

  const InternalError := "Internal server error"

  /** The error envelope `new ApiResponse(false, message)`. */
  function ErrorEnvelope(message: string): (v: Value)
    ensures v == ToValue(ApiResponse(false, message, Null))
  {
    ToValue(NewApiResponse(Some(false), Some(message), Undefined))
  }

  /** The 500 answer builds: the envelope serializes and 500 is an
      accepted status that allows a body. */
  lemma InternalAnswerBuilds()
    ensures JsonResponse(ErrorEnvelope(InternalError), 500) == Built(Response(500, ErrorEnvelope(InternalError)))
  {
    assert UnsignedShort(500) == 500;
    assert ErrorEnvelope(InternalError).Obj?;
  }

  /** The `catch` block: an `ApiError` is answered with its own status and
      message, anything else with 500 "Internal server error". Building the
      answer is not guarded, so what it throws escapes. */
  function Catch(thrown: HandlerOutcome): (d: Delivery)
    requires !thrown.Returned?
    ensures thrown.ThrewOther? ==> d == Answered(Response(500, ErrorEnvelope(InternalError)))
    ensures thrown.ThrewApiError? ==>
              var code := UnsignedShort(thrown.error.status);
              && (d.Answered? <==> Constructible(code) && !NullBodyStatus(code))
              && (d.Answered? ==> d.response == Response(code, ErrorEnvelope(thrown.error.message)))
  {
    InternalAnswerBuilds();
    var built := match thrown
      case ThrewApiError(e) => JsonResponse(ErrorEnvelope(e.message), e.status)
      case ThrewOther(_) => JsonResponse(ErrorEnvelope(InternalError), 500);
    match built
    case Built(r) => Answered(r)
    case BuildFailed(e) => Escaped(e)
  }

  /** The wrapped handler. A value that serializes is answered 200 as the
      body; a bare `undefined` makes `NextResponse.json` throw inside the
      `try`, which is answered like any other error. An `ApiError` is
      answered with its status converted by `UnsignedShort` and
      `{success: false, message, data: null}`; anything else with 500
      "Internal server error". The only ways out without a response are an
      `ApiError` status that the `Response` constructor refuses: outside
      200 to 599 (a `RangeError`) or one that may not carry a body (a
      `TypeError`). */
  function Wrap(outcome: HandlerOutcome): (d: Delivery)
    ensures outcome.Returned? && Serializable(outcome.value) ==> d == Answered(Response(200, outcome.value))
    ensures outcome.Returned? && !Serializable(outcome.value) ==>
              d == Answered(Response(500, ToValue(ApiResponse(false, InternalError, Null))))
    ensures outcome.ThrewApiError? && Constructible(UnsignedShort(outcome.error.status))
            && !NullBodyStatus(UnsignedShort(outcome.error.status)) ==>
              d == Answered(Response(UnsignedShort(outcome.error.status),
                                      ToValue(ApiResponse(false, outcome.error.message, Null))))
    ensures outcome.ThrewOther? ==> d == Answered(Response(500, ToValue(ApiResponse(false, InternalError, Null))))
    ensures d.Escaped? <==>
              outcome.ThrewApiError? && (!Constructible(UnsignedShort(outcome.error.status))
                                         || NullBodyStatus(UnsignedShort(outcome.error.status)))
  {
    match outcome
    case Returned(v) =>
      (match JsonResponse(v, 200)
       case Built(r) => Answered(r)
       case BuildFailed(e) => Catch(ThrewOther(e)))
    case _ => Catch(outcome)
  }

  /** Every error answer carries `success: false` and `data: null`: the
      `ApiError`'s own `success` flag plays no part. */
  lemma ErrorAnswersFail(outcome: HandlerOutcome)
    requires !(outcome.Returned? && Serializable(outcome.value))
    requires Wrap(outcome).Answered?
    ensures var body := Wrap(outcome).response.body;
            body.Obj? && body.fields["success"] == Bool(false) && body.fields["data"] == Null
  {
  }

  /** Flipping an `ApiError`'s `success` flag changes nothing. */
  lemma WrapIgnoresErrorSuccess(e: ApiError)
    ensures Wrap(ThrewApiError(e)) == Wrap(ThrewApiError(e.(success := !e.success)))
  {
  }

  /** `throw new ApiError(404, undefined, "Not found")` is answered 404
      `{success: false, message: "Not found", data: null}`. */
  lemma NotFoundExample()
    ensures Wrap(ThrewApiError(NewApiError(404, None, "Not found")))
              == Answered(Response(404, Obj(map["success" := Bool(false),
                                                 "message" := Str("Not found"),
                                                 "data" := Null])))
  {
  }

  /** A handler that returns nothing is answered 500, not 200. */
  lemma UndefinedResultExample()
    ensures Wrap(Returned(Undefined))
              == Answered(Response(500, Obj(map["success" := Bool(false),
                                                 "message" := Str(InternalError),
                                                 "data" := Null])))
  {
  }

  /** Large statuses wrap around 16 bits, negative ones keep their sign:
      an `ApiError` with status 65736 is answered 200, while -1 and -65336
      (which the WebIDL standard's modulo would make 65535 and 200) both
      escape with the `RangeError`. */
  lemma StatusWrapExample(message: string)
    ensures Wrap(ThrewApiError(ApiError(65736, false, message))).Answered?
    ensures Wrap(ThrewApiError(ApiError(65736, false, message))).response.status == 200
    ensures Wrap(ThrewApiError(ApiError(-1, false, message))) == Escaped(StatusRangeError())
    ensures Wrap(ThrewApiError(ApiError(-65336, false, message))) == Escaped(StatusRangeError())
  {
    assert UnsignedShort(65736) == 200;
    assert UnsignedShort(-1) == -1;
    assert UnsignedShort(-65336) == -65336;
  }

  /** No negative status is ever answered: the conversion keeps its sign,
      so the `Response` constructor refuses it with the `RangeError`. */
  lemma NegativeStatusEscapes(error: ApiError)
    requires error.status < 0
    ensures Wrap(ThrewApiError(error)) == Escaped(StatusRangeError())
  {
  }

  /** An `ApiError` with status 204 escapes: the error envelope is a body,
      and a 204 response may not have one. */
  lemma NoContentEscapes(message: string)
    ensures Wrap(ThrewApiError(ApiError(204, false, message))) == Escaped(NullBodyError(204))
  {
  }
}
