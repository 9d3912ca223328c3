/** The editor client talking to the proxy: the request `StartRun` sends
    is the request `Post` receives, and the response `Post` gives is what
    `Finish` reads back. */
module EndToEnd {
  import opened Optional
  import opened Js
  import opened Http
  import opened RunCode
  import opened CodeRunner

  /** What the client's `fetch` settles to for a proxy response: `ok` from
      the status, and the body as `res.json()` reads it back (a field that
      serialization drops reads as `undefined`, as it does in the model). */
  function Deliver(r: Response): (c: Completion)
    ensures c.Responded? && c.data == r.body
    ensures c.ok <==> 200 <= r.status <= 299
  {
    Responded(IsOk(r.status), r.body)
  }

  /** The selector offers exactly the languages the proxy's table knows. */
  lemma SelectorMatchesTable()
    ensures forall l: Lang :: Name(l) in LanguageMap
    ensures LanguageMap.Keys == {Name(JavaScript), Name(Python), Name(Cpp), Name(C), Name(Java)}
  {
  }

  /** A request from the client is refused only for an empty editor, never
      for its language; otherwise it is forwarded with the language's id,
      the code and the stdin as typed. */
  lemma ClientRequestAdmission(s: State)
    ensures s.code == "" ==> Admit(StartRun(s).request) == Refused(Response(400, ErrorBody(MissingFields)))
    ensures s.code != "" ==>
              Admit(StartRun(s).request) == Admitted(Submission(s.code, LanguageMap[Name(s.language)], s.stdin))
    ensures Admit(StartRun(s).request) != Refused(Response(400, ErrorBody(UnsupportedLanguage)))
  {
  }

  /** Any failing proxy answer ends the client's run on the red "Error"
      badge with the proxy's own message in the error panel and nothing in
      the output panel. */
  lemma ProxyFailureShown(s: State, judge: Submission -> Upstream, parse: string -> Option<Value>)
    requires Post(StartRun(s).request, judge, parse).response.status != 200
    ensures var r := Post(StartRun(s).request, judge, parse).response;
            var t := Run(s, Deliver(r));
            && t.statusText == ErrorStatus && BadgeOf(t.statusText) == ErrorBadge
            && t.errorOutput == r.body.fields["error"].chars && t.errorOutput != ""
            && t.output == "" && !t.isRunning
  {
  }

  /** A successful proxy answer shows exactly what Judge0 reported: the
      projection keeps every field the client reads. */
  lemma ProxySuccessShown(s: State, judge: Submission -> Upstream, parse: string -> Option<Value>)
    requires Post(StartRun(s).request, judge, parse).response.status == 200
    ensures var x := Post(StartRun(s).request, judge, parse);
            var data := parse(judge(x.sent.value).text).value;
            var t := Run(s, Deliver(x.response));
            && judge(x.sent.value).Replied? && !Nullish(data)
            && t.output == OrElse(Get(data, "stdout"), "")
            && t.errorOutput == OrElse(Get(data, "stderr"), "")
            && t.statusText == StatusLine(data)
            && !t.isRunning
  {
  }

  /** Running right after choosing a language submits that language's
      template under its id, with the stdin kept from before; the proxy
      always admits it. */
  lemma RunAfterLanguageChange(s: State, l: Lang)
    ensures Admit(StartRun(ChangeLanguage(s, l)).request)
              == Admitted(Submission(DefaultCode(l), LanguageMap[Name(l)], s.stdin))
  {
    ClientRequestAdmission(ChangeLanguage(s, l));
  }
}
