/**
 * The top-level component wired to the Judge0 client (src/App.js): the
 * standard-input text, the output panel, the loader flag and the
 * hamburger-menu flag, and the handlers that update them.
 */
module Judge0App {
  import opened Options
  import opened Lang
  import opened Text
  import opened Events
  import opened Files
  import J = Judge0Service

  const SomethingWentWrong := "Something went wrong"
  const OutputIsEmpty := "Output is Empty"
  const OutputFileName := "output.txt"

  /** Status id 3: the program was accepted. */
  const Accepted := 3

  datatype OutputField = Stdout | Stderr | CompileOutput

  /** The field of a finished submission the output panel shows. */
  function ShownField(s: J.Submission): (f: OutputField)
    ensures f == Stdout <==> s.statusId == Accepted
  {
    if s.statusId == Accepted then Stdout
    else if s.languageId == 100 || s.languageId == 93 then Stderr
    else CompileOutput
  }

  function FieldText(s: J.Submission, f: OutputField): string {
    match f
    case Stdout => J.Atob(s.stdout)
    case Stderr => J.Atob(s.stderr)
    case CompileOutput => J.Atob(s.compileOutput)
  }

  /** The text a `success` event puts in the output panel. */
  function DisplayedOutput(s: J.Submission): (d: string)
    ensures s.statusId == Accepted ==> d == J.Atob(s.stdout)
    ensures d in {J.Atob(s.stdout), J.Atob(s.stderr), J.Atob(s.compileOutput)}
  {
    FieldText(s, ShownField(s))
  }

  /** An accepted run shows its standard output; any other finished run of
      one of the four languages shows standard error exactly when the
      language is interpreted (Python, JavaScript) and the compiler output
      otherwise (C++, Java). */
  lemma {:induction false} ShownFieldByLanguage(s: J.Submission, l: Language)
    requires s.languageId == J.LanguageId(l)
    ensures ShownField(s) == Stdout <==> s.statusId == Accepted
    ensures ShownField(s) == Stderr <==> s.statusId != Accepted && (l == Python || l == JavaScript)
    ensures ShownField(s) == CompileOutput <==> s.statusId != Accepted && (l == Cpp || l == Java)
    ensures DisplayedOutput(s) in {J.Atob(s.stdout), J.Atob(s.stderr), J.Atob(s.compileOutput)}
  {
    match l
    case Cpp => assert s.languageId == 76;
    case Python => assert s.languageId == 100;
    case JavaScript => assert s.languageId == 93;
    case Java => assert s.languageId == 62;
  }

  /** What the component renders from: the loader flag and the output text. */
  datatype Screen = Screen(showLoader: bool, output: string)

  /** The effect of one `callback` invocation. */
  function Step(sc: Screen, e: Event<J.Submission>): (r: Screen)
    ensures r.showLoader <==> e.Loading?
    ensures e.Loading? ==> r.output == sc.output
  {
    match e
    case Loading => sc.(showLoader := true)
    case Error(_) => Screen(false, SomethingWentWrong)
    case Success(s) => Screen(false, DisplayedOutput(s))
  }

  /** The effect of a sequence of callback invocations, in order. */
  function Replay(sc: Screen, events: seq<Event<J.Submission>>): Screen
    decreases |events|
  {
    if events == [] then sc else Step(Replay(sc, events[..|events| - 1]), events[|events| - 1])
  }

  /** Where a run leaves the screen, starting from the cleared output:
      nothing changes when encoding fails, the loader stays while polling,
      and a finished run hides the loader and shows the settled
      submission's text or the fixed error message. */
  lemma {:induction false} RunOutcome(loader: bool, code: string, language: Language, stdin: string,
                                      creation: J.CreationReply, replies: seq<J.PollReply>)
    ensures var r := Replay(Screen(loader, ""), J.Trace(code, language, stdin, creation, replies));
      && (!J.IsLatin1(code) || !J.IsLatin1(stdin) ==> r == Screen(loader, ""))
      && (J.IsLatin1(code) && J.IsLatin1(stdin) ==>
            && (creation.CreationFailed? ==> r == Screen(false, SomethingWentWrong))
            && (creation.Created? ==>
                  var k := J.FirstStop(replies);
                  && (k == |replies| ==> r == Screen(true, ""))
                  && (k < |replies| && replies[k].PollFailed? ==> r == Screen(false, SomethingWentWrong))
                  && (k < |replies| && replies[k].Polled? ==> r == Screen(false, DisplayedOutput(replies[k].submission)))))
  {
    var sc := Screen(loader, "");
    var t := J.Trace(code, language, stdin, creation, replies);
    if t != [] {
      assert t[..1] == [Loading];
      assert Replay(sc, t[..1]) == Screen(true, "") by {
        assert t[..1][..0] == [];
      }
      if |t| == 2 {
        assert t[..|t| - 1] == t[..1];
      }
    }
  }

  class App {
    var input: string
    var output: string
    var showLoader: bool
    var isHamburgerOpen: bool

    function View(): Screen
      reads this
    {
      Screen(showLoader, output)
    }

    constructor ()
      ensures input == "" && output == "" && !showLoader && !isHamburgerOpen
    {
      input, output, showLoader, isHamburgerOpen := "", "", false, false;
    }

    /** `importInput`: a picked text file replaces the standard input;
        no file, or one whose type does not mention "text", changes nothing. */
    method ImportInput(file: Option<Upload>)
      modifies this`input
      ensures file.Some? && IsTextFile(file.value) ==> input == file.value.contents
      ensures !(file.Some? && IsTextFile(file.value)) ==> input == old(input)
    {
      if file.Some? {
        if IsTextFile(file.value) {
          input := file.value.contents;
        }
      }
    }

    /** `exportOutput`: refuses with an alert when the trimmed output is
        empty, and otherwise downloads the trimmed output as output.txt. */
    method ExportOutput() returns (r: ExportOutcome)
      ensures r.Alerted? <==> IsBlank(output)
      ensures r.Alerted? ==> r.message == OutputIsEmpty
      ensures r.Saved? ==> r.file == Download(OutputFileName, Trim(output))
    {
      r := Export(output, OutputFileName, OutputIsEmpty);
    }

    /** `callback`: `loading` shows the loader and keeps the output, `error`
        shows the fixed message whatever its text, and `success` shows the
        field the status and language select. */
    method Callback(e: Event<J.Submission>)
      modifies this`showLoader, this`output
      ensures e.Loading? ==> showLoader && output == old(output)
      ensures e.Error? ==> !showLoader && output == SomethingWentWrong
      ensures e.Success? ==> !showLoader && output == DisplayedOutput(e.data)
      ensures View() == Step(old(View()), e)
    {
      match e {
        case Loading =>
          showLoader := true;
        case Error(_) =>
          showLoader := false;
          output := SomethingWentWrong;
        case Success(data) =>
          showLoader := false;
          if data.statusId == Accepted {
            output := J.Atob(data.stdout);
          } else if data.languageId == 100 || data.languageId == 93 {
            output := J.Atob(data.stderr);
          } else {
            output := J.Atob(data.compileOutput);
          }
      }
    }

    method ToggleHamburger()
      modifies this`isHamburgerOpen
      ensures isHamburgerOpen == !old(isHamburgerOpen)
    {
      isHamburgerOpen := !isHamburgerOpen;
    }

    /** `runCode`: clears the output, then submits the code with the
        current input and feeds every event of the run to `Callback`. */
    method RunCode(code: string, language: Language, creation: J.CreationReply, replies: seq<J.PollReply>)
      modifies this`output, this`showLoader
      ensures View() == Replay(Screen(old(showLoader), ""), J.Trace(code, language, input, creation, replies))
    {
      output := "";
      var start := View();
      var _, _, events := J.MakeSubmission(code, language, input, creation, replies);
      for i := 0 to |events|
        invariant View() == Replay(start, events[..i])
      {
        Callback(events[i]);
        assert events[..i + 1][..i] == events[..i];
      }
      assert events[..|events|] == events;
    }
  }

  /** Toggling the menu twice restores it. */
  method ToggleHamburgerTwice(app: App)
    modifies app
    ensures app.isHamburgerOpen == old(app.isHamburgerOpen)
    ensures app.output == old(app.output) && app.showLoader == old(app.showLoader)
  {
    app.ToggleHamburger();
    app.ToggleHamburger();
  }
}
