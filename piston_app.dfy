/**
 * The top-level component wired to the Piston client (src/App.jsx): the
 * same state as the Judge0 variant, but a `success` event carries the text
 * to show, which the output panel takes verbatim.
 */
module PistonApp {
  import opened Options
  import opened Lang
  import opened Text
  import opened Events
  import opened Files
  import P = PistonApi

  const SomethingWentWrong := "Something went wrong"
  const OutputIsEmpty := "Output is Empty"
  const OutputFileName := "output.txt"

  /** What the component renders from: the loader flag and the output text. */
  datatype Screen = Screen(showLoader: bool, output: string)

  /** The effect of one `callback` invocation. */
  function Step(sc: Screen, e: Event<string>): (r: Screen)
    ensures r.showLoader <==> e.Loading?
    ensures e.Loading? ==> r.output == sc.output
  {
    match e
    case Loading => sc.(showLoader := true)
    case Error(_) => Screen(false, SomethingWentWrong)
    case Success(data) => Screen(false, data)
  }

  /** Where a run leaves the screen, starting from the cleared output: the
      loader is hidden, and the panel shows the program's output, the
      explained signal, or the fixed error message for every failure
      (non-ok status, network failure, no output). */
  lemma RunOutcome(loader: bool, reply: P.Reply)
    ensures var r := Step(Step(Screen(loader, ""), Loading), P.Outcome(reply));
      && !r.showLoader
      && (P.Outcome(reply).Success? ==> r.output == P.Outcome(reply).data)
      && (P.Outcome(reply).Error? ==> r.output == SomethingWentWrong)
      && (reply.Responded? && !P.IsOk(reply.status) ==> r.output == SomethingWentWrong)
      && (reply.NetworkFailure? ==> r.output == SomethingWentWrong)
  {
  }

  class App {
    var input: string
    var output: string
    var showLoader: bool
    var isHamburgerOpen: bool

    function View(): Screen
      reads this
    {
      Screen(showLoader, output)
    }

    constructor ()
      ensures input == "" && output == "" && !showLoader && !isHamburgerOpen
    {
      input, output, showLoader, isHamburgerOpen := "", "", false, false;
    }

    /** `importInput`: a picked text file replaces the standard input;
        no file, or one whose type does not mention "text", changes nothing. */
    method ImportInput(file: Option<Upload>)
      modifies this`input
      ensures file.Some? && IsTextFile(file.value) ==> input == file.value.contents
      ensures !(file.Some? && IsTextFile(file.value)) ==> input == old(input)
    {
      if file.Some? {
        if IsTextFile(file.value) {
          input := file.value.contents;
        }
      }
    }

    /** `exportOutput`: refuses with an alert when the trimmed output is
        empty, and otherwise downloads the trimmed output as output.txt. */
    method ExportOutput() returns (r: ExportOutcome)
      ensures r.Alerted? <==> IsBlank(output)
      ensures r.Alerted? ==> r.message == OutputIsEmpty
      ensures r.Saved? ==> r.file == Download(OutputFileName, Trim(output))
    {
      r := Export(output, OutputFileName, OutputIsEmpty);
    }

    /** `callback`: `loading` shows the loader and keeps the output, `error`
        shows the fixed message whatever its text, and `success` shows its
        data verbatim. */
    method Callback(e: Event<string>)
      modifies this`showLoader, this`output
      ensures e.Loading? ==> showLoader && output == old(output)
      ensures e.Error? ==> !showLoader && output == SomethingWentWrong
      ensures e.Success? ==> !showLoader && output == e.data
      ensures View() == Step(old(View()), e)
    {
      match e {
        case Loading =>
          showLoader := true;
        case Error(_) =>
          showLoader := false;
          output := SomethingWentWrong;
        case Success(data) =>
          showLoader := false;
          output := data;
      }
    }

    method ToggleHamburger()
      modifies this`isHamburgerOpen
      ensures isHamburgerOpen == !old(isHamburgerOpen)
    {
      isHamburgerOpen := !isHamburgerOpen;
    }

    /** `runCode`: clears the output, submits the code with the current
        input and feeds both events of the run to `Callback`. Returns the
        request sent. */
    method RunCode(code: string, language: Language, reply: P.Reply) returns (request: P.Request)
      modifies this`output, this`showLoader
      ensures request == P.BuildRequest(code, language, Some(input))
      ensures request.stdin == input
      ensures View() == Step(Step(Screen(old(showLoader), ""), Loading), P.Outcome(reply))
    {
      output := "";
      var events;
      request, events := P.MakeSubmission(code, language, Some(input), reply);
      Callback(events[0]);
      Callback(events[1]);
    }
  }

  /** Toggling the menu twice restores it. */
  method ToggleHamburgerTwice(app: App)
    modifies app
    ensures app.isHamburgerOpen == old(app.isHamburgerOpen)
    ensures app.output == old(app.output) && app.showLoader == old(app.showLoader)
  {
    app.ToggleHamburger();
    app.ToggleHamburger();
  }
}
