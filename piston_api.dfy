/**
 * The single-request execution client for the Piston API
 * (`makeSubmission` of src/PistonApi.js). The HTTP exchange is an input:
 * the model receives the reply the POST would have produced and returns
 * the request body it sends and the callback events it emits, in order.
 */
module PistonApi {
  import opened Options
  import opened Lang
  import opened Text
  import opened Events

  /** `languageCodeMap`: Piston's runtime name for each language. */
  function LanguageCode(l: Language): (code: string)
    ensures code != []
    ensures LanguageOfCode(code) == Some(l)
  {
    match l
    case Cpp => "cpp"
    case Python => "python3"
    case JavaScript => "javascript"
    case Java => "java"
  }

  /** The inverse lookup: which language a runtime name stands for. */
  function LanguageOfCode(code: string): Option<Language> {
    if code == "cpp" then Some(Cpp)
    else if code == "python3" then Some(Python)
    else if code == "javascript" then Some(JavaScript)
    else if code == "java" then Some(Java)
    else None
  }

  datatype SourceFile = SourceFile(name: string, content: string)

  /** The JSON body of the POST to the execute endpoint. */
  datatype Request = Request(language: string, version: string, files: seq<SourceFile>, stdin: string)

  /** The request body; `stdin` is `None` when the caller passed `undefined`. */
  function BuildRequest(code: string, language: Language, stdin: Option<string>): (r: Request)
    ensures LanguageOfCode(r.language) == Some(language)
    ensures r.version == "*"
    ensures r.files == [SourceFile("code", code)]
    ensures stdin.Some? ==> r.stdin == stdin.value
    ensures stdin.None? ==> r.stdin == ""
  {
    Request(LanguageCode(language), "*", [SourceFile("code", code)],
            if stdin.Some? && stdin.value != "" then stdin.value else "")
  }

  /** The `run` object of a parsed reply. A missing or `null` field is
      represented by "", which JavaScript treats as false just like them. */
  datatype Run = Run(output: string, signal: string)

  /** The reply body as `response.json()` sees it: not JSON at all (the
      call throws), or a value whose `run` may be absent. */
  datatype Parsed = NotJson | Json(run: Option<Run>)

  /** What `fetch` yields: a rejection, or a response with its status
      code, its text and its parsed body. */
  datatype Reply = NetworkFailure | Responded(status: nat, text: string, parsed: Parsed)

  /** `response.ok`. */
  predicate IsOk(status: nat) { 200 <= status <= 299 }

  const NoOutputMessage := "No output received or there was an issue with execution."

  /** The message of a non-ok response: `Error: ${status}. ${errorText}`. */
  function StatusMessage(status: nat, text: string): (m: string)
    ensures |m| == 9 + |Decimal(status)| + |text|
    ensures m[..7] == "Error: " && m[7..7 + |Decimal(status)|] == Decimal(status)
    ensures m[7 + |Decimal(status)|..9 + |Decimal(status)|] == ". "
    ensures m[|m| - |text|..] == text
  {
    "Error: " + Decimal(status) + ". " + text
  }

  const KillExplanation := "\n" + "Possible cause: Infinite loop, memory overload, or long-running execution."
  const SegvExplanation := "\n" + "Possible cause: Segmentation fault, invalid memory access."
  const TermExplanation := "\n" + "Possible cause: Process was terminated by the system."
  const AbrtExplanation := "\n" + "Possible cause: Abnormal termination (e.g., assert failure)."
  const DefaultExplanation := "\n" + "Check for potential issues in the code."

  /** The five lines the `switch` can append. */
  const ExplanationLines := {KillExplanation, SegvExplanation, TermExplanation, AbrtExplanation, DefaultExplanation}

  const KnownSignals := {"SIGKILL", "SIGSEGV", "SIGTERM", "SIGABRT"}

  /** The explanation the `switch` on the signal appends: one line of the
      table, opened by a newline; only unknown signals get the default. */
  function Explanation(signal: string): (x: string)
    ensures x in ExplanationLines && |x| > 1 && x[0] == '\n'
    ensures x == DefaultExplanation <==> signal !in KnownSignals
    ensures signal == "SIGKILL" ==> x == KillExplanation
    ensures signal == "SIGSEGV" ==> x == SegvExplanation
    ensures signal == "SIGTERM" ==> x == TermExplanation
    ensures signal == "SIGABRT" ==> x == AbrtExplanation
  {
    if signal == "SIGKILL" then KillExplanation
    else if signal == "SIGSEGV" then SegvExplanation
    else if signal == "SIGTERM" then TermExplanation
    else if signal == "SIGABRT" then AbrtExplanation
    else DefaultExplanation
  }

  /** The text shown for a run that ended by a signal. */
  function SignalMessage(signal: string): (m: string)
    ensures |m| == |signal| + |Explanation(signal)|
    ensures m[..|signal|] == signal && m[|signal|..] == Explanation(signal)
  {
    signal + Explanation(signal)
  }

  /** The terminal event for a reply (lines 29-79). */
  function Outcome(reply: Reply): (e: Event<string>)
    ensures e.IsTerminal()
  {
    match reply
    case NetworkFailure => Error(SerializedError)
    case Responded(status, text, parsed) =>
      if !IsOk(status) then Error(StatusMessage(status, text))
      else match parsed
        case NotJson => Error(SerializedError)
        case Json(run) =>
          if run.Some? && run.value.output != "" then Success(run.value.output)
          else if run.Some? && run.value.signal != "" then Success(SignalMessage(run.value.signal))
          else Error(NoOutputMessage)
  }

  /** `makeSubmission`: builds the request, reports `loading`, then
      classifies the reply, spelling out the signal explanation by
      appending to the signal name as the source's `switch` does. */
  method MakeSubmission(code: string, language: Language, stdin: Option<string>, reply: Reply)
    returns (request: Request, events: seq<Event<string>>)
    ensures request == BuildRequest(code, language, stdin)
    ensures events == [Loading, Outcome(reply)]
    ensures events[0] == Loading && events[1].IsTerminal() && AtMostOneTerminal(events)
  {
    request := Request(LanguageCode(language), "*", [SourceFile("code", code)],
                       if stdin.Some? && stdin.value != "" then stdin.value else "");
    events := [Loading];
    match reply {
      case NetworkFailure =>
        events := events + [Error(SerializedError)];
      case Responded(status, text, parsed) =>
        if !IsOk(status) {
          events := events + [Error("Error: " + Decimal(status) + ". " + text)];
          return;
        }
        match parsed {
          case NotJson =>
            events := events + [Error(SerializedError)];
          case Json(run) =>
            if run.Some? && run.value.output != "" {
              events := events + [Success(run.value.output)];
            } else if run.Some? && run.value.signal != "" {
              var errorMessage := run.value.signal;
              if errorMessage == "SIGKILL" {
                errorMessage := errorMessage + KillExplanation;
              } else if errorMessage == "SIGSEGV" {
                errorMessage := errorMessage + SegvExplanation;
              } else if errorMessage == "SIGTERM" {
                errorMessage := errorMessage + TermExplanation;
              } else if errorMessage == "SIGABRT" {
                errorMessage := errorMessage + AbrtExplanation;
              } else {
                errorMessage := errorMessage + DefaultExplanation;
              }
              events := events + [Success(errorMessage)];
            } else {
              events := events + [Error(NoOutputMessage)];
            }
        }
    }
  }

  /** A non-ok response is an error, never a success, and its message
      carries the status code in decimal right after "Error: ". */
  lemma {:induction false} HttpErrorCarriesStatus(status: nat, text: string, parsed: Parsed)
    requires !IsOk(status)
    ensures var e := Outcome(Responded(status, text, parsed));
      && e.Error?
      && var digits := Decimal(status);
      && |e.message| >= 7 + |digits|
      && e.message[..7] == "Error: "
      && e.message[7..7 + |digits|] == digits
      && AllDigits(e.message[7..7 + |digits|])
      && DigitsValue(e.message[7..7 + |digits|]) == status
  {
    var digits := Decimal(status);
    var m := StatusMessage(status, text);
    assert m == "Error: " + digits + (". " + text);
    assert m[7..7 + |digits|] == digits;
    DecimalRoundTrip(status);
  }

  /** A non-empty `run.output` wins, whatever the signal. */
  lemma OutputWins(status: nat, text: string, run: Run)
    requires IsOk(status) && run.output != ""
    ensures Outcome(Responded(status, text, Json(Some(run)))) == Success(run.output)
  {
  }

  /** Without output, a signal still yields `success`: the signal name
      followed by the explanation line the table gives that signal, the
      default one exactly for an unknown signal. */
  lemma {:induction false} SignalYieldsExplainedSuccess(status: nat, text: string, run: Run)
    requires IsOk(status) && run.output == "" && run.signal != ""
    ensures var e := Outcome(Responded(status, text, Json(Some(run))));
      && e.Success?
      && |e.data| > |run.signal| + 1
      && e.data[..|run.signal|] == run.signal
      && e.data[|run.signal|] == '\n'
      && e.data[|run.signal|..] == Explanation(run.signal)
      && e.data[|run.signal|..] in ExplanationLines
      && (run.signal !in KnownSignals <==> e.data[|run.signal|..] == DefaultExplanation)
  {
    var x := Explanation(run.signal);
    var m := SignalMessage(run.signal);
    assert m[..|run.signal|] == run.signal;
    assert m[|run.signal|..] == x;
  }

  /** Neither output nor signal: the fixed "No output" error. */
  lemma NoOutputNoSignalIsError(status: nat, text: string, run: Option<Run>)
    requires IsOk(status)
    requires run.None? || (run.value.output == "" && run.value.signal == "")
    ensures Outcome(Responded(status, text, Json(run))) == Error(NoOutputMessage)
  {
  }

  /** Conversely, `success` comes only from an ok, parsed reply whose run
      has an output or a signal. */
  lemma SuccessOnlyFromRun(reply: Reply)
    requires Outcome(reply).Success?
    ensures reply.Responded? && IsOk(reply.status) && reply.parsed.Json?
    ensures reply.parsed.run.Some?
    ensures reply.parsed.run.value.output != "" || reply.parsed.run.value.signal != ""
  {
  }
}
