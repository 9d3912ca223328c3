/** The `/api/run-code` proxy (`app/api/run-code/route.ts`): validates the
    request, forwards it to the Judge0 execution service and reshapes the
    reply. The service and `JSON.parse` are parameters of `Post`: the
    service is any function from the submission sent to the outcome of
    the call, the parser any function from text to the parsed value or
    `None` when parsing throws. */
module RunCode {
  import opened Optional
  import opened Js
  import opened Http

  /** Language name to Judge0 language id. */
  const LanguageMap: map<string, int> :=
    map["javascript" := 63, "python" := 71, "cpp" := 54, "c" := 50, "java" := 62]

  const MissingFields := "language and sourceCode are required"
  const UnsupportedLanguage := "Unsupported language"
  const JudgeError := "Judge0 error"
  const InvalidJson := "Invalid JSON from Judge0"
  const RunFailed := "Failed to run code"

  /** The fields of a successful reply that are passed on to the client. */
  const ResultKeys: set<string> := {"stdout", "stderr", "status", "time", "memory"}

  /** What `await req.json()` yields: the three destructured fields, or
      the error thrown while reading or destructuring the body. */
  datatype RequestBody =
    | Unreadable(failure: Thrown)
    | Fields(language: Option<string>, sourceCode: Option<string>, stdin: Option<string>)

  /** The body of the request sent to Judge0. */
  datatype Submission = Submission(sourceCode: string, languageId: int, stdin: string)

  /** How the call to Judge0 ended: it threw (network failure, or reading
      the reply's text failed), or a reply with a status and raw text came
      back. */
  datatype Upstream =
    | Threw(failure: Thrown)
    | Replied(status: nat, text: string)

  /** The proxy's answer, together with the submission it sent to Judge0
      (`None` when it made no call). */
  datatype Exchange = Exchange(response: Response, sent: Option<Submission>)

  /** The outcome of the checks that precede the call to Judge0. */
  datatype Admission = Admitted(submission: Submission) | Refused(response: Response)

  /** A field that is an optional string passes the `!x` test: it is
      defined and truthy. */
  predicate Present(field: Option<string>) {
    field.Some? && Truthy(Str(field.value))
  }

  /** `JSON.stringify` of the submission, as Judge0 receives it. */
  function SubmissionJson(s: Submission): (v: Value)
    requires s.languageId >= 0
    ensures v.Obj? && v.fields.Keys == {"source_code", "language_id", "stdin"}
    ensures v.fields["source_code"] == Str(s.sourceCode) && v.fields["stdin"] == Str(s.stdin)
    ensures v.fields["language_id"] == NumOf(s.languageId)
  {
    Obj(map["source_code" := Str(s.sourceCode), "language_id" := NumOf(s.languageId), "stdin" := Str(s.stdin)])
  }

  /** The answer of the catch-all handler: 500 with the thrown value's
      message, or its string form when the message is missing or empty. */
  function Failure(e: Thrown): (r: Response)
    ensures r.status == 500 && r.body.Obj? && r.body.fields.Keys == {"error", "details"}
    ensures r.body.fields["error"] == Str(RunFailed)
    ensures e.message.Some? && e.message.value != "" ==> r.body.fields["details"] == Str(e.message.value)
    ensures !(e.message.Some? && e.message.value != "") ==> r.body.fields["details"] == Str(e.text)
  {
    var details := if e.message.Some? && e.message.value != "" then e.message.value else e.text;
    Response(500, Obj(map["error" := Str(RunFailed), "details" := Str(details)]))
  }

  /** The checks made before any call: the request body must be readable,
      `language` and `sourceCode` must be non-empty, and the language must
      have a (truthy, i.e. non-zero) id in the table. */
  function Admit(body: RequestBody): (a: Admission)
    ensures body.Unreadable? ==> a == Refused(Failure(body.failure))
    ensures (body.Fields? && (!Present(body.language) || !Present(body.sourceCode))) ==>
              a == Refused(Response(400, ErrorBody(MissingFields)))
    ensures (body.Fields? && Present(body.language) && Present(body.sourceCode)
             && body.language.value !in LanguageMap) ==>
              a == Refused(Response(400, ErrorBody(UnsupportedLanguage)))
    ensures a.Admitted? <==>
              body.Fields? && Present(body.language) && Present(body.sourceCode)
              && body.language.value in LanguageMap
    ensures a.Admitted? ==>
              a.submission == Submission(body.sourceCode.value,
                                         LanguageMap[body.language.value],
                                         body.stdin.OrDefault(""))
  {
    match body
    case Unreadable(e) => Refused(Failure(e))
    case Fields(language, sourceCode, stdin) =>
      if !Present(language) || !Present(sourceCode) then
        Refused(Response(400, ErrorBody(MissingFields)))
      else if language.value !in LanguageMap || LanguageMap[language.value] == 0 then
        Refused(Response(400, ErrorBody(UnsupportedLanguage)))
      else
        Admitted(Submission(sourceCode.value, LanguageMap[language.value], stdin.OrDefault("")))
  }

  /** The success body: exactly the five result fields of the parsed
      reply, each copied unchanged (`undefined` when the reply lacks it). */
  function Project(data: Value): (v: Value)
    requires !Nullish(data)
    ensures v.Obj? && v.fields.Keys == ResultKeys
    ensures forall k :: k in ResultKeys ==> v.fields[k] == Get(data, k)
  {
    Obj(map k | k in ResultKeys :: Get(data, k))
  }

  /** The answer built from Judge0's outcome. */
  function Relay(outcome: Upstream, parse: string -> Option<Value>): (r: Response)
    ensures outcome.Threw? ==> r == Failure(outcome.failure)
    ensures outcome.Replied? && !IsOk(outcome.status) ==>
              r == Response(500, Obj(map["error" := Str(JudgeError),
                                         "status" := NumOf(outcome.status),
                                         "details" := Str(outcome.text)]))
    ensures outcome.Replied? && IsOk(outcome.status) && parse(outcome.text).None? ==>
              r == Response(500, Obj(map["error" := Str(InvalidJson), "raw" := Str(outcome.text)]))
    ensures outcome.Replied? && IsOk(outcome.status) && parse(outcome.text).Some?
              && parse(outcome.text).value.Null? ==>
              r == Failure(ErrorOf("TypeError", ReadFailure(Null, "stdout")))
    ensures r.status == 200 <==>
              outcome.Replied? && IsOk(outcome.status) && parse(outcome.text).Some?
              && !Nullish(parse(outcome.text).value)
    ensures r.status == 200 ==> outcome.Replied? && r == Response(200, Project(parse(outcome.text).value))
    ensures r.status == 200 || r.status == 500
  {
    match outcome
    case Threw(e) => Failure(e)
    case Replied(status, text) =>
      if !IsOk(status) then
        Response(500, Obj(map["error" := Str(JudgeError),
                              "status" := NumOf(status),
                              "details" := Str(text)]))
      else
        match parse(text)
        case None => Response(500, Obj(map["error" := Str(InvalidJson), "raw" := Str(text)]))
        case Some(data) =>
          if Nullish(data) then
            // `data.stdout` on a parsed `null` throws; the outer catch answers.
            Failure(ErrorOf("TypeError", ReadFailure(data, "stdout")))
          else
            Response(200, Project(data))
  }

  /** `POST /api/run-code`. */
  function Post(body: RequestBody, judge: Submission -> Upstream, parse: string -> Option<Value>): (x: Exchange)
    ensures x.sent.Some? <==> Admit(body).Admitted?
    ensures x.sent.Some? ==> x.sent.value == Admit(body).submission
                             && x.response == Relay(judge(x.sent.value), parse)
    ensures x.sent.None? ==> Admit(body) == Refused(x.response)
  {
    match Admit(body)
    case Refused(r) => Exchange(r, None)
    case Admitted(s) => Exchange(Relay(judge(s), parse), Some(s))
  }

  /** Every answer has status 200, 400 or 500 and an object body, so
      `NextResponse.json` builds it as given and never throws; 400 only for
      a request refused before any call, 200 only after a call. */
  lemma PostStatuses(body: RequestBody, judge: Submission -> Upstream, parse: string -> Option<Value>)
    ensures var x := Post(body, judge, parse);
            && (x.response.status == 200 || x.response.status == 400 || x.response.status == 500)
            && JsonResponse(x.response.body, x.response.status) == Built(x.response)
            && (x.response.status == 400 ==> x.sent.None?)
            && (x.response.status == 200 ==> x.sent.Some?)
  {
    var x := Post(body, judge, parse);
    var r := x.response;
    assert r.body.Obj?;
    assert r.status == 200 || r.status == 400 || r.status == 500;
    assert UnsignedShort(r.status) == r.status;
    assert Constructible(r.status) && !NullBodyStatus(r.status);
  }

  /** A refused request does not depend on Judge0 at all: any two services
      give the same answer, and nothing is sent. */
  lemma RefusalIgnoresJudge(body: RequestBody, judge1: Submission -> Upstream, judge2: Submission -> Upstream,
                            parse: string -> Option<Value>)
    requires Admit(body).Refused?
    ensures Post(body, judge1, parse) == Post(body, judge2, parse)
    ensures Post(body, judge1, parse).sent.None?
  {
  }

  /** The Judge0 status and raw text are relayed whatever the text holds:
      503 "overloaded" becomes 500 `{error: "Judge0 error", status: 503,
      details: "overloaded"}`. */
  lemma OverloadedExample(parse: string -> Option<Value>)
    ensures var x := Post(Fields(Some("python"), Some("print(8)"), None), s => Replied(503, "overloaded"), parse);
            && x.sent == Some(Submission("print(8)", 71, ""))
            && x.response == Response(500, Obj(map["error" := Str("Judge0 error"),
                                                   "status" := Num("503"),
                                                   "details" := Str("overloaded")]))
  {
    assert Text.Decimal(503) == "503" by {
      assert Text.Decimal(50) == "50";
    }
  }

  /** A reply that is not JSON is relayed raw. */
  lemma InvalidJsonExample(html: string)
    ensures var x := Post(Fields(Some("c"), Some("int main(){}"), Some("1 2")), s => Replied(200, html), t => None);
            && x.sent == Some(Submission("int main(){}", 50, "1 2"))
            && x.response == Response(500, Obj(map["error" := Str("Invalid JSON from Judge0"), "raw" := Str(html)]))
  {
  }

  /** The projection of an accepted reply keeps the five result fields
      and drops `token`. */
  lemma AcceptedProjection(status: Value)
    ensures Project(Obj(map["stdout" := Str("8"), "stderr" := Null, "status" := status,
                            "time" := Str("0.01"), "memory" := Num("3456"), "token" := Str("abc")]))
            == Obj(map["stdout" := Str("8"), "stderr" := Null, "status" := status,
                       "time" := Str("0.01"), "memory" := Num("3456")])
  {
    var data := Obj(map["stdout" := Str("8"), "stderr" := Null, "status" := status,
                        "time" := Str("0.01"), "memory" := Num("3456"), "token" := Str("abc")]);
    var expected := map["stdout" := Str("8"), "stderr" := Null, "status" := status,
                        "time" := Str("0.01"), "memory" := Num("3456")];
    assert Project(data).fields == expected;
  }

  /** A successful reply is cut down to the five result fields:
      `{stdout: "8", stderr: null, status: {id: 3, description: "Accepted"},
      time: "0.01", memory: 3456, token: ...}` yields exactly the first five. */
  lemma AcceptedExample(text: string)
    ensures
      var status := Obj(map["id" := Num("3"), "description" := Str("Accepted")]);
      var data := Obj(map["stdout" := Str("8"), "stderr" := Null, "status" := status,
                          "time" := Str("0.01"), "memory" := Num("3456"), "token" := Str("abc")]);
      var x := Post(Fields(Some("javascript"), Some("console.log(8)"), None), s => Replied(200, text), t => Some(data));
      x.response == Response(200, Obj(map["stdout" := Str("8"), "stderr" := Null, "status" := status,
                                          "time" := Str("0.01"), "memory" := Num("3456")]))
  {
    AcceptedProjection(Obj(map["id" := Num("3"), "description" := Str("Accepted")]));
  }

  /** Every answer other than 200 explains itself: its body has a
      non-empty `error` string, one of the five fixed messages. */
  lemma ErrorAnswersExplain(body: RequestBody, judge: Submission -> Upstream, parse: string -> Option<Value>)
    requires Post(body, judge, parse).response.status != 200
    ensures var b := Post(body, judge, parse).response.body;
            && b.Obj? && "error" in b.fields && b.fields["error"].Str?
            && b.fields["error"].chars in {MissingFields, UnsupportedLanguage, JudgeError, InvalidJson, RunFailed}
            && b.fields["error"].chars != ""
  {
  }

  /** Judge0 receives exactly the request's source code, the language's
      id from the table and the request's stdin, `""` when it was left out. */
  lemma JudgeReceives(body: RequestBody, judge: Submission -> Upstream, parse: string -> Option<Value>)
    requires Post(body, judge, parse).sent.Some?
    ensures body.Fields? && body.language.value in LanguageMap
    ensures SubmissionJson(Post(body, judge, parse).sent.value)
              == Obj(map["source_code" := Str(body.sourceCode.value),
                         "language_id" := NumOf(LanguageMap[body.language.value]),
                         "stdin" := Str(body.stdin.OrDefault(""))])
  {
  }
}
