/** The editor client (`components/practise/CodeRunner.tsx`): the state
    the component keeps, the transitions its handlers make, and the two
    pure helpers its view uses (the status badge and the line counter).
    A run is `StartRun` followed, once the request settles, by `Finish`;
    the `await`s in between are not interleaved with anything but the
    disabled button, so each step is atomic. */
module CodeRunner {
  import opened Optional
  import opened Js
  import opened Text
  import RunCode

  /** The options of the language selector. */
  datatype Lang = JavaScript | Python | Cpp | C | Java

  /** The option's value, the name sent to the proxy. */
  function Name(l: Lang): string {
    match l
    case JavaScript => "javascript"
    case Python => "python"
    case Cpp => "cpp"
    case C => "c"
    case Java => "java"
  }

  /** The template the editor is reset to for each language, held as
      its lines. */
  function DefaultCode(l: Lang): (code: string)
    ensures |code| > 0
  {
    var lines := (match l
      case JavaScript => ["// JS Example", "function add(a, b) {", "  return a + b;", "}", "console.log(add(2, 3));"]
      case Python => ["# Python Example", "def add(a, b):", "    return a + b", "", "print(add(2, 3))"]
      case Cpp => ["#include <bits/stdc++.h>", "using namespace std;", "int main() {", "    cout << 2 + 3 << endl;", "    return 0;", "}"]
      case C => ["#include <stdio.h>", "int main() {", "    printf(\"%d\\n\", 2 + 3);", "    return 0;", "}"]
      case Java => ["public class Main {", "    public static void main(String[] args) {", "        System.out.println(2 + 3);", "    }", "}"]);
    Join(lines, '\n')
  }

  /** The component's state, one field per `useState`. */
  datatype State = State(
    language: Lang,
    code: string,
    stdin: string,
    output: string,
    errorOutput: string,
    statusText: string,
    isRunning: bool)

  const Running := "Running..."
  const ErrorStatus := "Error"
  const DoneStatus := "Done"
  const UnknownError := "Unknown error"
  const SomethingWrong := "Something went wrong"

  /** The state on mount: JavaScript with its template, every text empty,
      not running. */
  function Initial(): (s: State)
    ensures s.language == JavaScript && s.code == DefaultCode(JavaScript)
    ensures s.stdin == "" && s.output == "" && s.errorOutput == "" && s.statusText == ""
    ensures !s.isRunning
  {
    State(JavaScript, DefaultCode(JavaScript), "", "", "", "", false)
  }

  /** `handleLanguageChange`: selects `l` and replaces the editor's text
      with `l`'s template, whatever was typed; nothing else moves. */
  function ChangeLanguage(s: State, l: Lang): (t: State)
    ensures t.language == l && t.code == DefaultCode(l)
    ensures t.stdin == s.stdin && t.output == s.output && t.errorOutput == s.errorOutput
    ensures t.statusText == s.statusText && t.isRunning == s.isRunning
  {
    s.(language := l, code := DefaultCode(l))
  }

  /** Typing in the editor. */
  function EditCode(s: State, text: string): (t: State)
    ensures t.code == text && t == s.(code := text)
  {
    s.(code := text)
  }

  /** Typing in the stdin box. */
  function EditStdin(s: State, text: string): (t: State)
    ensures t.stdin == text && t == s.(stdin := text)
  {
    s.(stdin := text)
  }

  /** The state after the synchronous part of `runCode`, and the body of
      the request it sends to the proxy. */
  datatype Started = Started(state: State, request: RunCode.RequestBody)

  /** The start of `runCode`: marks the run, clears both panels, shows
      "Running..." and posts the current language, code and stdin. */
  function StartRun(s: State): (st: Started)
    ensures st.state.isRunning
    ensures st.state.output == "" && st.state.errorOutput == "" && st.state.statusText == Running
    ensures st.state.language == s.language && st.state.code == s.code && st.state.stdin == s.stdin
    ensures st.request == RunCode.Fields(Some(Name(s.language)), Some(s.code), Some(s.stdin))
  {
    Started(s.(isRunning := true, output := "", errorOutput := "", statusText := Running),
            RunCode.Fields(Some(Name(s.language)), Some(s.code), Some(s.stdin)))
  }

  /** A click on the run button, which is disabled while a run is in
      flight: then nothing happens and nothing is sent. */
  function Click(s: State): (r: (State, Option<RunCode.RequestBody>))
    ensures s.isRunning ==> r == (s, None)
    ensures !s.isRunning ==> r.0 == StartRun(s).state && r.1 == Some(StartRun(s).request)
  {
    if s.isRunning then (s, None)
    else
      var st := StartRun(s);
      (st.state, Some(st.request))
  }

  /** How the request settled: a response with its `ok` flag and the
      value `res.json()` parsed from it, or an error thrown by `fetch` or
      `res.json()` (always an `Error`, so it has a message). */
  datatype Completion = Responded(ok: bool, data: Value) | Failed(message: string)

  /** The `catch` block. */
  function Caught(s: State, message: string): (t: State)
    ensures t.statusText == ErrorStatus && t.errorOutput != ""
    ensures message != "" ==> t.errorOutput == message
    ensures message == "" ==> t.errorOutput == SomethingWrong
    ensures t == s.(statusText := ErrorStatus, errorOutput := t.errorOutput)
  {
    s.(statusText := ErrorStatus, errorOutput := if message == "" then SomethingWrong else message)
  }

  /** What follows the description in a described status line. */
  function StatusTail(data: Value): string
    requires !Nullish(data)
  {
    " \U{2022} " + Show(Get(data, "time")) + "s \U{2022} " + Show(Get(data, "memory")) + " KB"
  }

  /** The status line of a successful run: `"<description> • <time>s •
      <memory> KB"` when `data.status?.description` is truthy, `"Done"`
      otherwise. */
  function StatusLine(data: Value): (line: string)
    requires !Nullish(data)
    ensures line != ""
    ensures var d := GetOptional(Get(data, "status"), "description");
            Truthy(d) ==> line == Show(d) + (" \U{2022} " + Show(Get(data, "time")) + "s \U{2022} "
                                           + Show(Get(data, "memory")) + " KB")
    ensures !Truthy(GetOptional(Get(data, "status"), "description")) ==> line == DoneStatus
  {
    var description := GetOptional(Get(data, "status"), "description");
    if Truthy(description) then
      Show(description) + StatusTail(data)
    else DoneStatus
  }

  /** The body of `runCode`'s `try` after the request settles, with the
      `catch` it falls into when a property of a `null` body is read. */
  function Settle(s: State, c: Completion): State
  {
    match c
    case Failed(m) => Caught(s, m)
    case Responded(ok, data) =>
      if !ok then
        var t := s.(statusText := ErrorStatus);
        if Nullish(data) then Caught(t, ReadFailure(data, "error"))
        else t.(errorOutput := OrElse(Get(data, "error"), UnknownError))
      else if Nullish(data) then Caught(s, ReadFailure(data, "stdout"))
      else s.(output := OrElse(Get(data, "stdout"), ""),
              errorOutput := OrElse(Get(data, "stderr"), ""),
              statusText := StatusLine(data))
  }

  /** The `finally` block. */
  function Finally(s: State): (t: State)
    ensures !t.isRunning && t == s.(isRunning := false)
  {
    s.(isRunning := false)
  }

  /** The end of `runCode`: the settled request's effect, then `finally`.
      Every path clears the in-flight flag and leaves language, code and
      stdin alone; every path but a readable `ok` reply shows "Error"
      with a non-empty error text. */
  function Finish(s: State, c: Completion): (t: State)
    ensures !t.isRunning
    ensures t.language == s.language && t.code == s.code && t.stdin == s.stdin
    ensures c.Failed? ==>
              t.statusText == ErrorStatus && t.output == s.output
              && t.errorOutput == (if c.message == "" then SomethingWrong else c.message)
    ensures (c.Responded? && !c.ok && !Nullish(c.data)) ==>
              t.statusText == ErrorStatus && t.output == s.output
              && t.errorOutput == OrElse(Get(c.data, "error"), UnknownError)
    ensures (c.Responded? && Nullish(c.data)) ==>
              t.statusText == ErrorStatus && t.output == s.output
              && t.errorOutput == ReadFailure(c.data, if c.ok then "stdout" else "error")
    ensures (c.Responded? && c.ok && !Nullish(c.data)) ==>
              t.output == OrElse(Get(c.data, "stdout"), "")
              && t.errorOutput == OrElse(Get(c.data, "stderr"), "")
              && t.statusText == StatusLine(c.data)
  {
    Finally(Settle(s, c))
  }

  /** A whole run from a state where the button is enabled. */
  function Run(s: State, c: Completion): State
  {
    Finish(StartRun(s).state, c)
  }

  /** The badge's three looks. */
  datatype Badge = ErrorBadge | SuccessBadge | NeutralBadge

  /** The badge's style: red for a status starting with "Error", green for
      one starting with "Accepted" or "Done", neutral otherwise. */
  function BadgeOf(statusText: string): (b: Badge)
    ensures b == ErrorBadge <==> StartsWith(statusText, "Error")
    ensures b == SuccessBadge <==>
              !StartsWith(statusText, "Error")
              && (StartsWith(statusText, "Accepted") || StartsWith(statusText, "Done"))
  {
    if StartsWith(statusText, "Error") then ErrorBadge
    else if StartsWith(statusText, "Accepted") || StartsWith(statusText, "Done") then SuccessBadge
    else NeutralBadge
  }

  /** The badge's text: the status, or "Idle" when there is none. */
  function BadgeText(statusText: string): (t: string)
    ensures t != ""
    ensures statusText != "" ==> t == statusText
    ensures statusText == "" ==> t == "Idle"
  {
    if statusText == "" then "Idle" else statusText
  }

  /** The "N line(s)" label over a panel. */
  datatype LineLabel = LineLabel(count: nat, plural: bool)

  /** `{text && <span>{n} line{n > 1 ? "s" : ""}</span>}` with
      `n = text.trim().split("\n").length`: no label for empty text,
      otherwise one more line than the trimmed text has newlines. */
  function LinesOf(text: string): (l: Option<LineLabel>)
    ensures l.None? <==> text == ""
    ensures l.Some? ==> l.value.count == Count(Trim(text), '\n') + 1
    ensures l.Some? ==> (l.value.plural <==> l.value.count > 1)
  {
    if text == "" then None
    else
      var n := |Split(Trim(text), '\n')|;
      SplitLength(Trim(text), '\n');
      Some(LineLabel(n, n > 1))
  }

  /** The label as displayed: the count in decimal, then " line", with
      an "s" exactly for a plural label. */
  function Render(l: LineLabel): (s: string)
    ensures l.plural ==> s == Decimal(l.count) + " lines"
    ensures !l.plural ==> s == Decimal(l.count) + " line"
  {
    Decimal(l.count) + " line" + (if l.plural then "s" else "")
  }

  /** A run that does not end in a readable `ok` reply leaves the output
      panel empty and shows the red "Error" badge, and the run is over. */
  lemma FailedRunShowsError(s: State, c: Completion)
    requires !(c.Responded? && c.ok && !Nullish(c.data))
    ensures var t := Run(s, c);
            && t.output == "" && !t.isRunning
            && BadgeOf(t.statusText) == ErrorBadge && BadgeText(t.statusText) == "Error"
  {
  }

  /** The badge before and during a run is neutral; a readable `ok` reply
      with no status description shows the green "Done". */
  lemma NeutralUntilFinished(s: State, data: Value)
    requires !Nullish(data) && !Truthy(GetOptional(Get(data, "status"), "description"))
    ensures BadgeOf(Initial().statusText) == NeutralBadge && BadgeText(Initial().statusText) == "Idle"
    ensures BadgeOf(StartRun(s).state.statusText) == NeutralBadge
    ensures Run(s, Responded(true, data)).statusText == DoneStatus
    ensures BadgeOf(Run(s, Responded(true, data)).statusText) == SuccessBadge
  {
    assert Running[0] != "Error"[0];
  }

  /** Judge0's reply for an accepted run printing "8": status 3
      "Accepted", time "0.01", memory 3456, no stderr. */
  function AcceptedReply(): Value
  {
    Obj(map["stdout" := Str("8"), "stderr" := Null,
            "status" := Obj(map["id" := Num("3"), "description" := Str("Accepted")]),
            "time" := Str("0.01"), "memory" := Num("3456")])
  }

  /** The fields of `AcceptedReply` the editor reads. */
  lemma AcceptedReplyReads()
    ensures Get(AcceptedReply(), "stdout") == Str("8") && Get(AcceptedReply(), "stderr") == Null
    ensures GetOptional(Get(AcceptedReply(), "status"), "description") == Str("Accepted")
    ensures StatusTail(AcceptedReply()) == " \U{2022} " + "0.01" + "s \U{2022} " + "3456" + " KB"
  {
    var data := AcceptedReply();
    assert Get(data, "status") == Obj(map["id" := Num("3"), "description" := Str("Accepted")]);
    assert Get(data, "time") == Str("0.01") && Get(data, "memory") == Num("3456");
  }

  /** The pieces of the accepted status line, put together. */
  lemma AcceptedLineText()
    ensures "Accepted" + (" \U{2022} " + "0.01" + "s \U{2022} " + "3456" + " KB")
            == "Accepted \U{2022} 0.01s \U{2022} 3456 KB"
  {
  }

  /** The status line for `AcceptedReply`, on a green badge. */
  lemma AcceptedStatusLine()
    ensures StatusLine(AcceptedReply()) == "Accepted \U{2022} 0.01s \U{2022} 3456 KB"
    ensures BadgeOf(StatusLine(AcceptedReply())) == SuccessBadge
  {
    AcceptedReplyReads();
    assert BadgeOf(StatusLine(AcceptedReply())) == SuccessBadge by {
      StatusLineBadge(AcceptedReply());
      assert "Accepted"[0] != "Error"[0];
    }
    assert StatusLine(AcceptedReply()) == "Accepted" + StatusTail(AcceptedReply());
    AcceptedLineText();
  }

  /** Judge0's "Accepted" verdict with time "0.01" and memory 3456 is shown
      as "Accepted • 0.01s • 3456 KB" on a green badge, stdout in the
      output panel. */
  lemma AcceptedRunExample(s: State)
    ensures var t := Run(s, Responded(true, AcceptedReply()));
            && t.output == "8" && t.errorOutput == ""
            && t.statusText == "Accepted \U{2022} 0.01s \U{2022} 3456 KB"
            && BadgeOf(t.statusText) == SuccessBadge
  {
    AcceptedReplyReads();
    AcceptedStatusLine();
  }

  /** Output made only of whitespace still gets a label: "1 line". */
  lemma BlankTextIsOneLine(text: string)
    requires text != "" && forall i :: 0 <= i < |text| ==> IsWhitespace(text[i])
    ensures LinesOf(text) == Some(LineLabel(1, false))
  {
    TrimBlank(text);
  }

  /** Trailing newlines are trimmed before counting: "a\nb\n" is 2 lines. */
  lemma TrailingNewlineExample()
    ensures LinesOf("a\nb\n") == Some(LineLabel(2, true))
    ensures Render(LineLabel(2, true)) == "2 lines"
  {
    TrimExample();
    SplitExample();
  }

  lemma TrimExample()
    ensures Trim("a\nb\n") == "a\nb"
  {
    var text := "a\nb\n";
    assert TrimStart(text) == text;
    assert text[..|text| - 1] == "a\nb";
    assert TrimEnd("a\nb") == "a\nb";
  }

  lemma SplitExample()
    ensures Split("a\nb", '\n') == ["a", "b"]
  {
    assert Split("b", '\n') == ["b"] by {
      assert "b"[1..] == "" && Split("", '\n') == [""];
      assert ['b'] + "" == "b";
    }
    assert Split("\nb", '\n') == ["", "b"] by {
      assert "\nb"[1..] == "b" && "\nb"[0] == '\n';
    }
    assert "a\nb"[1..] == "\nb" && "a\nb"[0] == 'a';
    assert ['a'] + "" == "a";
  }

  /** Whether `prefix` starts `a + rest` is decided by `a` alone when
      `rest` starts with a space that `prefix` does not contain. */
  lemma PrefixStopsAtSpace(a: string, rest: string, prefix: string)
    requires rest != [] && rest[0] == ' ' && ' ' !in prefix
    ensures StartsWith(a + rest, prefix) <==> StartsWith(a, prefix)
  {
    if |prefix| > |a| {
      assert prefix[|a|] != (a + rest)[|a|];
    }
    if StartsWith(a, prefix) {
      assert (a + rest)[..|prefix|] == a[..|prefix|];
    }
  }

  /** A badge over text that continues with a space after `d` is decided
      by `d` alone, since none of "Error", "Accepted" and "Done" holds a
      space. */
  lemma BadgeBeforeSpace(d: string, rest: string)
    requires rest != [] && rest[0] == ' '
    ensures BadgeOf(d + rest) == ErrorBadge <==> StartsWith(d, "Error")
    ensures BadgeOf(d + rest) == SuccessBadge <==>
              !StartsWith(d, "Error") && (StartsWith(d, "Accepted") || StartsWith(d, "Done"))
  {
    PrefixStopsAtSpace(d, rest, "Error");
    PrefixStopsAtSpace(d, rest, "Accepted");
    PrefixStopsAtSpace(d, rest, "Done");
  }

  /** A described status line is the description followed by a tail that
      starts with a space. */
  lemma StatusLineParts(data: Value)
    requires !Nullish(data) && Truthy(GetOptional(Get(data, "status"), "description"))
    ensures StatusLine(data) == Show(GetOptional(Get(data, "status"), "description")) + StatusTail(data)
    ensures StatusTail(data) != [] && StatusTail(data)[0] == ' '
  {
  }

  /** The badge of a described status line is decided by Judge0's
      description alone: red exactly when it starts with "Error", green
      exactly when it otherwise starts with "Accepted" or "Done". */
  lemma StatusLineBadge(data: Value)
    requires !Nullish(data) && Truthy(GetOptional(Get(data, "status"), "description"))
    ensures var d := Show(GetOptional(Get(data, "status"), "description"));
            && (BadgeOf(StatusLine(data)) == ErrorBadge <==> StartsWith(d, "Error"))
            && (BadgeOf(StatusLine(data)) == SuccessBadge <==>
                  !StartsWith(d, "Error") && (StartsWith(d, "Accepted") || StartsWith(d, "Done")))
  {
    StatusLineParts(data);
    BadgeBeforeSpace(Show(GetOptional(Get(data, "status"), "description")), StatusTail(data));
  }

  /** Judge0's "Compilation Error" verdict does not start with "Error", so
      it is shown on the neutral badge. */
  lemma CompilationErrorIsNeutral(data: Value)
    requires !Nullish(data)
    requires Get(data, "status") == Obj(map["id" := Num("6"), "description" := Str("Compilation Error")])
    ensures BadgeOf(StatusLine(data)) == NeutralBadge
  {
    StatusLineBadge(data);
    assert GetOptional(Get(data, "status"), "description") == Str("Compilation Error");
    assert "Compilation Error"[0] == 'C';
  }

  /** A language change discards whatever was typed in the editor and any
      earlier language change: only the last selection counts. */
  lemma LanguageChangeDiscardsEdits(s: State, text: string, l1: Lang, l2: Lang)
    ensures ChangeLanguage(EditCode(s, text), l2) == ChangeLanguage(s, l2)
    ensures ChangeLanguage(ChangeLanguage(s, l1), l2) == ChangeLanguage(s, l2)
    ensures ChangeLanguage(EditStdin(s, text), l2) == EditStdin(ChangeLanguage(s, l2), text)
  {
  }
}
