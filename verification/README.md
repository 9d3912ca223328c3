# CodeCook online compiler: proxy, editor and API wrapper

A Dafny model of the logic of the CodeCook "online compiler":

- the `POST /api/run-code` proxy (`RunCode`), which validates a
  `{language, sourceCode, stdin}` request, forwards it to the Judge0
  code-execution service and reshapes Judge0's reply;
- the editor component (`CodeRunner`), a state record
  `{language, code, stdin, output, errorOutput, statusText, isRunning}`
  with one pure transition per handler, the status-badge classifier and the
  "N line(s)" label;
- the `asyncHandler` wrapper (`AsyncHandler`) with the `ApiError`
  (`ApiErrors`) and `ApiResponse` (`ApiResponses`) classes it uses.

Supporting modules: `Optional` (an `Option` for values that may be
`undefined`), `Text` (ECMAScript `startsWith`, `trim`, `split` and the
decimal form of a count), `Js` (JSON-shaped values with `undefined`,
truthiness, `String(v)`, property reads, thrown values) and `Http` (a
response as a status plus a JSON body; the Fetch standard's `ok` range
200-299, and `NextResponse.json`, which is the Fetch standard's
`Response.json`: the status is converted to an `unsigned short` as
undici computes it (a large status wraps around 16 bits, a negative one
keeps its sign), a bare `undefined` body cannot be serialized, and a status outside
200-599 or one that may not carry a body (204, 205, 304) is refused).
`EndToEnd` composes the editor with the proxy.

The call to Judge0 and `JSON.parse` are parameters of `RunCode.Post`: the
service is any function from the submission sent to how the call ended
(it threw, or it replied with a status and raw text), the parser any
function from text to a value, or `None` when parsing throws. The result
records the submission that was sent, `None` when no call was made, so
"no external call" is a property of the result.

Behaviour of the code that the model keeps and that is easy to miss:

- the field check is JavaScript truthiness: an empty `language` or
  `sourceCode` is "missing", and it is checked before the language table;
- the language check looks at the table's value for truthiness, which agrees
  with key membership because no id is 0 (`RunCode.Admit`);
- a Judge0 reply that parses to `null` makes `data.stdout` throw a
  `TypeError`, which the outer `catch` answers with 500 "Failed to run
  code"; any other non-object value yields a 200 whose five fields are all
  `undefined`;
- in `asyncHandler`, a handler that returns `undefined` makes
  `NextResponse.json` throw a `TypeError` inside the `try`, so it is
  answered 500 "Internal server error" like any other non-`ApiError`;
- in `asyncHandler`, `NextResponse.json` is called inside `catch` with the
  `ApiError`'s status converted as undici does it: JavaScript's `%` by
  65536, so 65736 answers 200 but a negative status stays negative
  (-65336 is not turned into 200). A converted status outside 200-599 makes it throw a `RangeError`, and 204, 205 or
  304 a `TypeError`; either escapes the wrapper (`AsyncHandler.Wrap`
  returns `Escaped`). Every other outcome produces a response;
- in the editor, a not-ok reply whose body is `null` makes `data.error`
  throw, and the `catch` block then shows the `TypeError`'s message.

## Model

| member | source | states |
|---|---|---|
| RunCode.Admit | app/api/run-code/route.ts:20-35 | an unreadable body goes to the catch-all answer; missing or empty `language`/`sourceCode` gives 400 "language and sourceCode are required" before the language is looked at; a language outside the five-entry table gives 400 "Unsupported language"; otherwise the submission is the code, the table's id and `stdin` defaulting to "" |
| RunCode.SubmissionJson | app/api/run-code/route.ts:43-47 | the body sent to Judge0 has exactly `source_code`, `language_id` and `stdin`, carrying the submission's values |
| RunCode.Failure | app/api/run-code/route.ts:88-97 | any thrown value is answered 500 `{error: "Failed to run code", details}` with details the error's message, or its string form when the message is missing or empty |
| RunCode.Project | app/api/run-code/route.ts:78-87 | the success body has exactly the keys stdout, stderr, status, time, memory, each equal to the parsed reply's field; every other field is dropped |
| RunCode.Relay | app/api/run-code/route.ts:37-87 | a throw goes to the catch-all; a not-ok status gives 500 with "Judge0 error", the upstream status and the raw text whatever it holds; an unparsable ok reply gives 500 "Invalid JSON from Judge0" with the raw text; a parsed `null` goes to the catch-all; the answer is 200 exactly when the reply was ok and parsed to a non-null value, and then it is the projection |
| RunCode.Post | app/api/run-code/route.ts:18-98 | Judge0 is called exactly when the request is admitted, with the admitted submission, and then the answer is the relayed one; otherwise the refusal is the answer |
| RunCode.PostStatuses | app/api/run-code/route.ts:18-98 | every answer is 200, 400 or 500 with an object body, which `NextResponse.json` builds unchanged; 400 only without a call, 200 only after one |
| RunCode.RefusalIgnoresJudge | app/api/run-code/route.ts:22-37 | a refused request makes no call and its answer is the same whatever the service would have done |
| RunCode.ErrorAnswersExplain | app/api/run-code/route.ts:22-97 | every non-200 answer carries a non-empty `error` string, one of the five fixed messages |
| RunCode.JudgeReceives | app/api/run-code/route.ts:20-47 | when a call is made, the JSON Judge0 receives is exactly the request's source code, the table's id for its language and its stdin, "" when left out |
| RunCode.OverloadedExample | app/api/run-code/route.ts:52-61 | a 503 "overloaded" reply for a Python request becomes 500 `{error: "Judge0 error", status: 503, details: "overloaded"}`, after sending language id 71 and stdin "" |
| RunCode.InvalidJsonExample | app/api/run-code/route.ts:64-76 | an ok reply that does not parse is answered 500 `{error: "Invalid JSON from Judge0", raw}` with the text unchanged |
| RunCode.AcceptedExample | app/api/run-code/route.ts:78-87 | the "Accepted" reply with an extra `token` field comes back as 200 with exactly the five result fields |
| ApiErrors.NewApiError | lib/ApiError.ts:5-9 | status and message are stored as given; `success` is false when left undefined and stored as given otherwise |
| ApiResponses.NewApiResponse | lib/ApiResponse.ts:8-12 | `success`, `message` and `data` default to true, "Success" and null when undefined, and are stored unchanged otherwise |
| ApiResponses.ToValue | lib/ApiResponse.ts:3-12 | the envelope serializes to an object with exactly the keys success, message and data |
| ApiResponses.NewApiResponseDefined | lib/ApiResponse.ts:8-10 | a constructed envelope never holds an undefined `data` |
| AsyncHandler.ErrorEnvelope | lib/AsyncHandler.ts:14-17 | the error body is `ApiResponse(false, message)`, with `data` null |
| Http.UnsignedShort | lib/AsyncHandler.ts:14 | the status handed to the response is undici's `unsigned short` conversion: congruent to the given status modulo 65536, strictly between -65536 and 65536, with the given status's sign, and unchanged when already in that range |
| Http.JsonResponse | lib/AsyncHandler.ts:9-17 | `NextResponse.json` builds a response exactly when the body is not a bare `undefined` and the converted status is in 200-599 and not 204, 205 or 304; the response carries the converted status; each refusal throws its own error |
| AsyncHandler.Catch | lib/AsyncHandler.ts:10-18 | a non-`ApiError` throw is answered 500 "Internal server error"; an `ApiError` is answered with its converted status and message exactly when that status can be built |
| AsyncHandler.Wrap | lib/AsyncHandler.ts:5-20 | a serializable return value is answered 200 with the value as body, and a bare `undefined` 500 "Internal server error"; an `ApiError` is answered with its status converted by `UnsignedShort` and `{success: false, message, data: null}`; any other throw with 500 "Internal server error"; the wrapper fails to respond exactly for an `ApiError` whose converted status is outside 200-599 or is a null-body status |
| AsyncHandler.ErrorAnswersFail | lib/AsyncHandler.ts:13-17 | every answer not carrying the handler's own value has `success` false and `data` null |
| AsyncHandler.WrapIgnoresErrorSuccess | lib/AsyncHandler.ts:13-14 | the `ApiError`'s own `success` flag does not affect the answer |
| AsyncHandler.NotFoundExample | lib/AsyncHandler.ts:13-14 | `ApiError(404, undefined, "Not found")` is answered 404 `{success: false, message: "Not found", data: null}` |
| AsyncHandler.UndefinedResultExample | lib/AsyncHandler.ts:7-17 | a handler returning `undefined` is answered 500 `{success: false, message: "Internal server error", data: null}` |
| AsyncHandler.StatusWrapExample | lib/AsyncHandler.ts:13-14 | an `ApiError` with status 65736 is answered 200, and ones with status -1 or -65336 escape with the `RangeError` |
| AsyncHandler.NegativeStatusEscapes | lib/AsyncHandler.ts:13-14 | an `ApiError` with any negative status escapes the wrapper with the `RangeError` |
| AsyncHandler.NoContentEscapes | lib/AsyncHandler.ts:13-14 | an `ApiError` with status 204 escapes with the null-body `TypeError` |
| CodeRunner.Initial | components/practise/CodeRunner.tsx:35-41 | on mount the language is JavaScript with its template, stdin, output, error and status are empty, and no run is in flight |
| CodeRunner.DefaultCode | components/practise/CodeRunner.tsx:5-32 | each language has its fixed, non-empty template, the lines of the source's template literal |
| CodeRunner.ChangeLanguage | components/practise/CodeRunner.tsx:43-47 | the language is set and the editor reset to its template; stdin, both panels, the status and the in-flight flag are untouched |
| CodeRunner.LanguageChangeDiscardsEdits | components/practise/CodeRunner.tsx:43-47 | a language change discards typed code and any earlier selection, and commutes with typing in stdin |
| CodeRunner.EditCode | components/practise/CodeRunner.tsx:171 | typing replaces the code and nothing else |
| CodeRunner.EditStdin | components/practise/CodeRunner.tsx:187 | typing replaces stdin and nothing else |
| CodeRunner.StartRun | components/practise/CodeRunner.tsx:51-64 | a run sets the in-flight flag, clears both panels, shows "Running..." and sends the current language name, code and stdin |
| CodeRunner.Click | components/practise/CodeRunner.tsx:122-124 | while a run is in flight the button is disabled: the state is unchanged and nothing is sent |
| CodeRunner.Caught | components/practise/CodeRunner.tsx:81-83 | a thrown error shows "Error" and its message, or "Something went wrong" when the message is empty; every other field is kept |
| CodeRunner.StatusLine | components/practise/CodeRunner.tsx:76-80 | with a truthy `status.description` the line is "<description> • <time>s • <memory> KB", otherwise "Done"; it is never empty |
| CodeRunner.Finally | components/practise/CodeRunner.tsx:84-86 | the in-flight flag is cleared and nothing else changes |
| CodeRunner.Finish | components/practise/CodeRunner.tsx:66-86 | every completion clears the in-flight flag and keeps language, code and stdin; a throw shows "Error" and the message or "Something went wrong"; a not-ok reply shows "Error" and `data.error` or "Unknown error"; a `null` body shows "Error" and the `TypeError`; an ok reply shows stdout or "", stderr or "", and the status line |
| CodeRunner.FailedRunShowsError | components/practise/CodeRunner.tsx:51-86 | a run not ending in a readable ok reply leaves the output panel empty, shows "Error" on the red badge and ends with no run in flight |
| CodeRunner.NeutralUntilFinished | components/practise/CodeRunner.tsx:140-149 | the badge is neutral and reads "Idle" on mount, is neutral while running, and an ok reply without a status description shows "Done" on the green badge |
| CodeRunner.AcceptedRunExample | components/practise/CodeRunner.tsx:74-80 | Judge0's "Accepted" with time 0.01 and memory 3456 shows "Accepted • 0.01s • 3456 KB" on the green badge with stdout in the output panel |
| CodeRunner.StatusLineBadge | components/practise/CodeRunner.tsx:76-80 | for a described status line the badge is red exactly when the description starts with "Error" and green exactly when it otherwise starts with "Accepted" or "Done" |
| CodeRunner.CompilationErrorIsNeutral | components/practise/CodeRunner.tsx:140-147 | Judge0's "Compilation Error" shows on the neutral badge, not the red one |
| CodeRunner.BadgeOf | components/practise/CodeRunner.tsx:140-147 | the badge is red exactly for a status starting with "Error", green exactly for one not starting with "Error" but with "Accepted" or "Done", neutral otherwise |
| CodeRunner.BadgeText | components/practise/CodeRunner.tsx:149 | the badge shows the status, or "Idle" when it is empty, and is never blank |
| CodeRunner.LinesOf | components/practise/CodeRunner.tsx:195-199 | there is no label exactly for empty text; otherwise the count is the number of newlines in the trimmed text plus one, plural exactly when above one |
| CodeRunner.Render | components/practise/CodeRunner.tsx:196-199 | the label reads the count in decimal followed by " line", with "s" exactly for a plural label |
| CodeRunner.BlankTextIsOneLine | components/practise/CodeRunner.tsx:195-199 | non-empty text made only of whitespace is labelled "1 line" |
| CodeRunner.TrailingNewlineExample | components/practise/CodeRunner.tsx:195-199 | "a\nb\n" is labelled "2 lines": the trailing newline is trimmed before counting |
| Text.TrimStart | components/practise/CodeRunner.tsx:197 | the result is the longest suffix that does not start with whitespace, all dropped characters being whitespace |
| Text.TrimEnd | components/practise/CodeRunner.tsx:197 | the result is the longest prefix that does not end with whitespace, all dropped characters being whitespace |
| Text.TrimShape | components/practise/CodeRunner.tsx:197 | `trim` keeps a contiguous middle, drops only whitespace around it, and leaves no whitespace at either end |
| Text.TrimIdempotent | components/practise/CodeRunner.tsx:197 | trimming trimmed text changes nothing |
| Text.SplitLength | components/practise/CodeRunner.tsx:197 | `split("\n")` yields one piece more than there are newlines |
| Text.SplitPiecesFree | components/practise/CodeRunner.tsx:197 | no piece of a split holds the separator |
| Text.JoinSplit | components/practise/CodeRunner.tsx:197 | joining the pieces with the separator gives back the text |
| Text.DecimalRoundTrip | components/practise/CodeRunner.tsx:197-198 | the printed count reads back as the count |
| EndToEnd.Deliver | components/practise/CodeRunner.tsx:56-68 | the client sees the proxy's body, with `ok` exactly for a 2xx status |
| EndToEnd.SelectorMatchesTable | app/api/run-code/route.ts:8-14 | the editor's five languages are exactly the keys of the proxy's language table |
| EndToEnd.ClientRequestAdmission | app/api/run-code/route.ts:22-47 | a request from the editor is refused only for an empty editor and never as an unsupported language; otherwise the proxy sends the code, the language's id and the stdin as typed |
| EndToEnd.RunAfterLanguageChange | components/practise/CodeRunner.tsx:43-63 | a run right after choosing a language submits that language's template under its id with the earlier stdin, and the proxy admits it |
| EndToEnd.ProxyFailureShown | components/practise/CodeRunner.tsx:68-72 | any failing proxy answer ends the run on the red "Error" badge with the proxy's message in the error panel and an empty output panel |
| EndToEnd.ProxySuccessShown | components/practise/CodeRunner.tsx:74-80 | a successful proxy answer shows Judge0's stdout, stderr and status line exactly as if the client had read Judge0's reply itself |

## Left out

- The network: `fetch` to Judge0 and to the proxy, and `req.json()`, `res.text()`, `res.json()`. Judge0 is a function parameter of `Post`; the client's completions are inputs of `Finish`.
- `JSON.parse`: a parameter of `Post` returning the parsed value or `None`.
- The serialized bytes, the headers and the `NextResponse` object itself: a response is a status plus the body value before serialization, so a field holding `undefined` (dropped when serialized) stays in the model's body; the client reads it back as `undefined` either way.
- The Judge0 URL, the request headers and `console.error` logging: they do not affect any answer.
- The JSX, CSS classes and rendering beyond the badge and the line label; the `symlink` import of `lib/ApiResponse.ts`.
- Async interleaving: each handler step is atomic; there is no cancellation and no stale-response handling in the code to model.
- Request fields that are not strings (`null`, numbers): `language`, `sourceCode` and `stdin` are optional strings, so `stdin: null` (which the code forwards as `null`, the default applying only to `undefined`) is not represented.
- Prototype keys of the language table: `LANGUAGE_MAP["constructor"]` (likewise `toString`, `valueOf` and the other inherited methods) is a truthy function, so such a request passes both checks and is forwarded with no `language_id` at all, since `JSON.stringify` drops a function-valued property; for `__proto__` the id is `Object.prototype` and is sent as `"language_id":{}`. The model's table is a finite map with exactly five keys, so these requests are refused as unsupported languages.
- Numbers are held as their JavaScript string form; their arithmetic and formatting are not modelled.
- CodeRunner.Finish: the output and error panels hold `String(v)` of a truthy `data.stdout`, `data.stderr` or `data.error`; the code stores the raw value, which differs only when Judge0 sends a non-string there.
- CodeRunner.Finish: a thrown value in the client is taken to be an `Error` with a string message (as every error `fetch` and `res.json()` raise is).
- The `Error` base class of `ApiError` (its `name` and `stack`): the wrapper's `instanceof` test is modelled by the separate `ThrewApiError` outcome.
- Http.UnsignedShort: statuses are integers; undici's truncation of a fractional status toward zero and its mapping of `NaN` and the infinities to 0 are not represented.
- Http.JsonResponse: the only unserializable body modelled is a bare `undefined`; functions, symbols, `BigInt`s and cyclic objects are not values of the model.
- Js.Get: properties of strings and arrays such as `length` are not modelled; none of the keys the code reads names one.
