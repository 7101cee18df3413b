# LiteCode, modelled in Dafny

LiteCode is a browser code editor. The user writes a C++, Python,
JavaScript or Java program, optionally gives it standard input, runs it on
a remote execution service, and reads the result in an output panel.
Programs, input and output can be imported from and exported to text files.

This project models the core of the application:

- **The two execution clients.**
  - The Judge0 client (`src/service.js`, module `Judge0Service`) Base64-encodes the program and its input and submits them. It then polls the submission's status while the status id is 1 (in queue) or 2 (processing), and reports `loading`, then at most one `success` or `error`, through a callback.
  - The Piston client (`src/PistonApi.js`, module `PistonApi`) sends one request and turns the single reply into one terminal event. It explains a kill signal with a fixed line of text.
- **The two top-level components.**
  - `src/App.js` (module `Judge0App`) and `src/App.jsx` (module `PistonApp`) hold the standard input, the output text, the loader flag and the menu flag. Their `callback` turns client events into what the output panel shows.
- **The two editor panels.**
  - `src/EditorContainer.jsx` (module `MultiBufferEditor`) keeps one stored program per language, plus a settings record: theme, font size, word wrap.
  - `src/EditorContainer.js` (module `SingleBufferEditor`) keeps a single program and discards it when the language changes.
- **Shared vocabulary** (`common.dfy`): the language enumeration, ECMAScript `trim`, decimal rendering of numbers, the callback event, file import and export, the theme toggle, and the file-extension table.

The network is not modelled as I/O. Each reply the clients would receive is
an input to the model:

- the Judge0 creation reply;
- the finite sequence of Judge0 status replies, one per poll;
- the single Piston reply.

Component state that React keeps in `useState`/`useRef` is modelled as the
fields of a Dafny class. Each handler is a method that updates those fields.

## Model

| member | source | states |
|---|---|---|
| Text.Trim | src/App.js:28 | the result is a contiguous part of the input, everything cut away on either side is ECMAScript whitespace, and the result neither starts nor ends with whitespace |
| Text.TrimEmptyIffBlank | src/App.js:28-32 | the trimmed text is empty exactly when the text consists of whitespace only, which is the condition under which export refuses |
| Text.TrimIdempotent | src/EditorContainer.jsx:73 | trimming twice gives the same text as trimming once |
| Text.Decimal | src/PistonApi.js:33 | the decimal rendering of a status code is non-empty, made of digits only, and has no leading zero |
| Text.DecimalRoundTrip | src/PistonApi.js:33 | reading back the rendered digits gives the status code again |
| Text.HasInfixIffOccurs | src/App.js:16 | `includes` holds exactly when the searched text appears at some index of the string |
| Files.IsTextFile | src/EditorContainer.jsx:53 | a picked file counts as text exactly when "text" appears somewhere in its MIME type |
| Files.Export | src/App.js:27-39 | export raises the alert exactly when the trimmed text is empty; otherwise it saves the trimmed text under the given file name |
| Editing.ToggledTheme | src/EditorContainer.js:90-97 | the theme always changes, vs-light to vs-dark and back |
| Editing.ToggledThemeInvolution | src/EditorContainer.jsx:98-103 | toggling the theme twice restores it |
| Editing.FileExtension | src/EditorContainer.jsx:12-17 | each language's extension is non-empty and maps back to that language |
| Editing.ExportFileName | src/EditorContainer.jsx:81 | the exported file is named `code.` followed by an extension that identifies the current language |
| PistonApi.LanguageCode | src/PistonApi.js:2-7 | each language's Piston name is non-empty and maps back to that language |
| PistonApi.BuildRequest | src/PistonApi.js:17-22 | the request names the language's Piston code, version `*` and one file holding the program; it sends the given standard input, or the empty string when there is none |
| PistonApi.StatusMessage | src/PistonApi.js:33 | the non-ok message is `Error: `, then the status's decimal digits, then `. `, then the response text, which it ends with |
| PistonApi.Explanation | src/PistonApi.js:46-63 | SIGKILL gets the infinite-loop line, SIGSEGV the segmentation-fault line, SIGTERM the terminated-by-the-system line and SIGABRT the abnormal-termination line; every other signal gets the default line, and only those do; each line is one of the five fixed lines and starts with a newline |
| PistonApi.SignalMessage | src/PistonApi.js:46-63 | the message for a signal is the signal name followed by exactly the explanation line the table gives that signal |
| PistonApi.Outcome | src/PistonApi.js:25-80 | every reply ends in a terminal event, `success` or `error` |
| PistonApi.MakeSubmission | src/PistonApi.js:10-81 | the request is the one built from the program, language and input; the callback trace is `loading` followed by the one terminal event for the reply |
| PistonApi.HttpErrorCarriesStatus | src/PistonApi.js:29-36 | a non-ok status gives an `error` whose message starts with `Error: ` followed by the status's decimal digits, which read back to the status |
| PistonApi.OutputWins | src/PistonApi.js:39-44 | a non-empty program output is reported as `success` verbatim, whatever the signal |
| PistonApi.SignalYieldsExplainedSuccess | src/PistonApi.js:45-68 | with no output, a signal gives `success`: the signal name followed by the explanation line the table gives that signal, which starts with a newline and is the default line exactly for an unknown signal |
| PistonApi.NoOutputNoSignalIsError | src/PistonApi.js:69-74 | with neither output nor signal, the reply gives the fixed "No output received" error |
| PistonApi.SuccessOnlyFromRun | src/PistonApi.js:29-80 | a `success` comes only from an ok, parsed reply whose run has an output or a signal |
| Judge0Service.LanguageId | src/service.js:1-6 | each language's judge id is positive and maps back to that language |
| Judge0Service.LanguageIdsDistinct | src/service.js:1-6 | no two languages share a judge id |
| Judge0Service.Btoa | src/service.js:40-41 | encoding succeeds exactly for Latin-1 text, and decoding the result gives the text back |
| Judge0Service.BuildRequest | src/service.js:38-42 | the body exists exactly when both program and input are Latin-1; it carries the language's id and decodes back to the program and the input |
| Judge0Service.FirstStop | src/service.js:51-60 | the index of the reply that ends the polling loop: every earlier reply is a pending status (id 1 or 2), and the reply at that index is not |
| Judge0Service.Terminal | src/service.js:56-63 | the reply that ends the loop yields a terminal event |
| Judge0Service.Trace | src/service.js:44-70 | the callback events of one run: none exactly when the body cannot be built, and never more than two |
| Judge0Service.MakeSubmission | src/service.js:28-71 | the polling loop emits exactly the trace `Trace` describes and issues one poll per reply up to the one that ends the loop; it issues no poll when encoding or creation fails |
| Judge0Service.TraceHasAtMostOneTerminal | src/service.js:44-70 | every non-empty trace starts with `loading` and carries at most one terminal event after it; the empty trace means no callback ran |
| Judge0Service.SuccessIsFirstSettledReply | src/service.js:51-64 | a `success` carries the first reply whose status is neither 1 nor 2, and every earlier reply was pending |
| Judge0Service.FailedPollIsFatal | src/service.js:56-58 | a failed poll reached before any settled status ends the run with one `error` and no `success` |
| Judge0Service.PendingRepliesKeepPolling | src/service.js:51-60 | pending replies alone never end the run |
| Judge0Service.EncodingFailureIsSilent | src/service.js:36-43 | a character `btoa` rejects means no callback at all |
| Judge0App.ShownField | src/App.js:51-60 | the panel shows standard output exactly when the status id is 3 |
| Judge0App.DisplayedOutput | src/App.js:51-60 | the panel shows the decoded standard output of an accepted run, and always one of the three decoded fields |
| Judge0App.Step | src/App.js:41-63 | one callback shows the loader exactly on `loading`, which keeps the output |
| Judge0App.App.constructor | src/App.js:7-10 | the input and output start empty, and the loader and the menu start hidden |
| Judge0App.ShownFieldByLanguage | src/App.js:49-61 | an accepted run (status 3) shows standard output; any other finished run shows standard error exactly for Python and JavaScript and the compiler output exactly for C++ and Java |
| Judge0App.RunOutcome | src/App.js:41-72 | where a whole run leaves the panel: when encoding fails no callback runs, so the output stays cleared and the loader is untouched; while polling the loader is on; otherwise the loader is off and the panel shows the settled submission's text or "Something went wrong" |
| Judge0App.App.ImportInput | src/App.js:12-25 | a text file replaces the standard input; any other pick leaves it unchanged |
| Judge0App.App.ExportOutput | src/App.js:27-39 | export alerts exactly when the trimmed output is empty, and otherwise saves the trimmed output as output.txt |
| Judge0App.App.Callback | src/App.js:41-63 | `loading` shows the loader and keeps the output; `error` shows the fixed message; `success` shows the field the status and language select |
| Judge0App.App.ToggleHamburger | src/App.js:65-67 | the menu flag flips |
| Judge0App.App.RunCode | src/App.js:69-72 | the output is cleared, then every event of the run is applied in order, leaving the panel as `Replay` of the run's trace |
| Judge0App.ToggleHamburgerTwice | src/App.js:65-67 | toggling the menu twice restores it and leaves the output alone |
| PistonApp.Step | src/App.jsx:40-52 | one callback shows the loader exactly on `loading`, which keeps the output |
| PistonApp.App.constructor | src/App.jsx:7-10 | the input and output start empty, and the loader and the menu start hidden |
| PistonApp.RunOutcome | src/App.jsx:40-52 | a run hides the loader and shows the program output or explained signal, or "Something went wrong" for every error, including a non-ok status and a network failure |
| PistonApp.App.ImportInput | src/App.jsx:12-24 | a text file replaces the standard input; any other pick leaves it unchanged |
| PistonApp.App.ExportOutput | src/App.jsx:26-38 | export alerts exactly when the trimmed output is empty, and otherwise saves the trimmed output as output.txt |
| PistonApp.App.Callback | src/App.jsx:40-52 | `loading` shows the loader and keeps the output; `error` shows the fixed message; `success` shows its data verbatim |
| PistonApp.App.ToggleHamburger | src/App.jsx:54-56 | the menu flag flips |
| PistonApp.App.RunCode | src/App.jsx:58-65 | the request sends the current standard input; the panel is left as the two steps of the run's trace make it |
| PistonApp.ToggleHamburgerTwice | src/App.jsx:54-56 | toggling the menu twice restores it and leaves the output alone |
| MultiBufferEditor.DefaultCode | src/EditorContainer.jsx:19-35 | the default program of each language (this variant's Java program has no note) |
| MultiBufferEditor.NumericValue | src/EditorContainer.jsx:119 | the number JavaScript reads from a font size: a number is itself, typed text is read exactly when it is a plain decimal numeral, giving its non-negative value, and anything else is not an integer |
| MultiBufferEditor.DefaultCodes | src/EditorContainer.jsx:19-35 | every language has a stored program, initially its default program |
| MultiBufferEditor.Decremented | src/EditorContainer.jsx:116-121 | "-" yields a number exactly when the size reads as an integer, and then one less; any other size stays not an integer |
| MultiBufferEditor.IncrementedAsWritten | src/EditorContainer.jsx:109-114 | "+" adds one to a number but appends the character "1" to a typed size; a size that is not an integer stays so |
| MultiBufferEditor.Incremented | src/EditorContainer.jsx:109-114 | the intended "+": a number exactly when the size reads as an integer, and then one more; any other size stays not an integer |
| MultiBufferEditor.WithToggledTheme | src/EditorContainer.jsx:98-103 | the theme changes and no other option does |
| MultiBufferEditor.WithToggledWrap | src/EditorContainer.jsx:130-135 | word wrap changes and no other option does |
| MultiBufferEditor.WithLargerFontAsWritten | src/EditorContainer.jsx:109-114 | the font size takes the as-written `+ 1` step (one more on a number, "1" appended to typed text), and no other option changes |
| MultiBufferEditor.WithLargerFont | src/EditorContainer.jsx:109-114 | the font size takes the intended step, one more whenever it reads as an integer, and no other option changes |
| MultiBufferEditor.WithSmallerFont | src/EditorContainer.jsx:116-121 | the font size becomes one less whenever it reads as an integer, and no other option changes |
| MultiBufferEditor.WithTypedFont | src/EditorContainer.jsx:123-128 | the font size becomes the typed text as a string, and nothing else changes |
| MultiBufferEditor.ThemeToggleIsInvolution | src/EditorContainer.jsx:98-103 | toggling the theme twice restores the options |
| MultiBufferEditor.WrapToggleIsInvolution | src/EditorContainer.jsx:130-135 | toggling word wrap twice restores the options |
| MultiBufferEditor.FontStepsCancel | src/EditorContainer.jsx:109-121 | with the intended step, "+" and "-" undo each other |
| MultiBufferEditor.FontStepsCancelAsWrittenOnNumbers | src/EditorContainer.jsx:109-121 | as written, "+" then "-" restores a numeric size |
| MultiBufferEditor.LargerAsWrittenAppendsDigit | src/EditorContainer.jsx:109-128 | as written, "+" on a typed size of n makes it 10n+1 |
| MultiBufferEditor.TypedEighteenThenPlus | src/EditorContainer.jsx:109-128 | typing 18 and pressing "+" gives 181, then "-" gives 180; the intended step gives 19 |
| MultiBufferEditor.Editor.constructor | src/EditorContainer.jsx:38-44 | every language starts with its default program; the buffer holds the C++ default; the options are the defaults |
| MultiBufferEditor.Editor.OnChangeCode | src/EditorContainer.jsx:46-48 | an edit changes only the live buffer |
| MultiBufferEditor.Editor.OnUploadCode | src/EditorContainer.jsx:50-70 | a text file replaces the current language's stored program and the buffer and remounts the widget; any other file alerts and changes nothing |
| MultiBufferEditor.Editor.ExportCode | src/EditorContainer.jsx:72-84 | export alerts exactly when the trimmed buffer is empty, and otherwise saves it as `code.<ext>` for the current language |
| MultiBufferEditor.Editor.OnChangeLanguage | src/EditorContainer.jsx:86-96 | the buffer is stored under the old language and the new language's stored program becomes the buffer |
| MultiBufferEditor.Editor.OnChangeThemeSettings | src/EditorContainer.jsx:98-103 | only the theme option changes |
| MultiBufferEditor.Editor.OnToggleSettings | src/EditorContainer.jsx:105-107 | the settings panel flag flips |
| MultiBufferEditor.Editor.OnIncreaseFontSize | src/EditorContainer.jsx:109-114 | the font size takes the intended "+" step |
| MultiBufferEditor.Editor.OnDecreaseFontSize | src/EditorContainer.jsx:116-121 | the font size takes one "-" step |
| MultiBufferEditor.Editor.SetFontSize | src/EditorContainer.jsx:123-128 | the font size becomes the typed text |
| MultiBufferEditor.Editor.ToggleWordWrap | src/EditorContainer.jsx:130-135 | only the word-wrap option changes |
| MultiBufferEditor.Editor.FullScreen | src/EditorContainer.jsx:137-143 | the buffer is stored under the current language and full-screen mode flips |
| MultiBufferEditor.Editor.OnRunCode | src/EditorContainer.jsx:145-150 | full-screen mode ends, storing the buffer if it was on; the buffer and the language are handed to the run |
| MultiBufferEditor.Editor.ClearCode | src/EditorContainer.jsx:152-158 | the buffer and the current language's stored program become empty |
| MultiBufferEditor.Editor.ResetCode | src/EditorContainer.jsx:159-167 | the buffer and the current language's stored program become its default, and the widget remounts |
| MultiBufferEditor.SwitchAndBack | src/EditorContainer.jsx:86-96 | switching to another language and back restores the buffer |
| MultiBufferEditor.ClearKeepsOtherSlots | src/EditorContainer.jsx:152-158 | clearing leaves every other language's stored program alone |
| SingleBufferEditor.DefaultCode | src/EditorContainer.js:17-34 | the default program of each language; the Java one opens with a note about the Main class |
| SingleBufferEditor.Editor.constructor | src/EditorContainer.js:37-42 | the program and the buffer start as the C++ default |
| SingleBufferEditor.Editor.OnChangeCode | src/EditorContainer.js:44-46 | an edit changes only the live buffer |
| SingleBufferEditor.Editor.OnUploadCode | src/EditorContainer.js:48-66 | a text file becomes the program and the buffer and remounts the widget; any other file alerts and changes nothing |
| SingleBufferEditor.Editor.ExportCode | src/EditorContainer.js:68-80 | export alerts exactly when the trimmed buffer is empty, and otherwise saves it as `code.<ext>` |
| SingleBufferEditor.Editor.OnChangeLanguage | src/EditorContainer.js:82-88 | the program and the buffer become the new language's default program |
| SingleBufferEditor.Editor.OnChangeButtonTheme | src/EditorContainer.js:90-97 | the theme toggles |
| SingleBufferEditor.Editor.FullScreen | src/EditorContainer.js:99-102 | the widget is given the buffer and full-screen mode flips |
| SingleBufferEditor.Editor.OnRunCode | src/EditorContainer.js:104-109 | full-screen mode ends and the buffer and the language are handed to the run |
| SingleBufferEditor.Editor.ClearCode | src/EditorContainer.js:111-114 | the buffer and the program become empty |
| SingleBufferEditor.Editor.ResetCode | src/EditorContainer.js:115-120 | the buffer and the program become the language's default, and the widget remounts |
| SingleBufferEditor.ThemeButtonTwice | src/EditorContainer.js:90-97 | pressing the theme button twice restores the theme and leaves the program alone |
| SingleBufferEditor.SwitchAndBack | src/EditorContainer.js:82-88 | switching to another language and back loses every edit: the buffer is the default program again |

## Left out

- HTTP itself is not modelled: URLs, headers, API keys, `fetch`, and the one-second delay between polls. Replies are inputs.
- Judge0Service.MakeSubmission: the source polls without bound. The model receives a finite sequence of replies. When none of them settles, the run is still polling and only `loading` has been reported.
- Judge0Service.Base64: Base64 text is represented by the string it decodes to, and the judge's fields are taken as valid Base64. A field the judge returns as `null` is not modelled. `atob(null)` decodes the text "null" into three stray characters, and the panel shows them. This happens for an accepted run with no standard output, for a Python or JavaScript run that is not accepted and has no standard error (a time limit or an internal error, say), and for a C++ or Java run that is not accepted and has no compiler output (src/App.js:52, src/App.js:56, src/App.js:59).
- A status reply without a status, a body that is not JSON, and a network failure are all one `PollFailed` reply. All three end in the same `error`. The `catch` in `getSubmission` calls an undefined callback, and the resulting exception is caught by the polling loop.
- A reply whose status id is missing is not distinguished from an id outside {1, 2, 3}.
- Every `catch` message is the fixed text "{}", which is what `JSON.stringify` gives for an Error object. Both components ignore that text anyway.
- PistonApi.Outcome: a failure of `response.text()` on a non-ok reply is folded into the network-failure case.
- PistonApi.Run: a missing or null `output` or `signal` is represented by the empty string, because JavaScript treats all three as false.
- The DOM is not modelled: FileReader, Blob, object URLs, `alert` rendering, `console.log`, and the `scrollIntoView` call in `src/App.jsx`. An import is the file's MIME type and text; an export is a file name and contents, or an alert message.
- React's asynchronous state updates and stale closures are not modelled. Each handler's updates take effect at once. Overlapping runs are not modelled either.
- MultiBufferEditor.NumericValue: typed font-size text is read as a number only when it is a plain decimal numeral. Any other text counts as not an integer; JavaScript would accept signs, spaces, fractions and exponents.
- MultiBufferEditor.Editor.OnIncreaseFontSize: uses the corrected numeric step. The source's concatenation is modelled by `IncrementedAsWritten` and recorded under Findings.
- The `lineNumbersMinChars` option is kept but never changed, as in the source. Rendering options the handlers do not touch are left out.
- Only the four languages of the selector are modelled. A language value outside them cannot arise from the UI.

## Findings

| source | as written | input that shows it | evidently intended | confidence | as-written member | corrected member |
|---|---|---|---|---|---|---|
| src/EditorContainer.jsx:109-128 | `setFontSize` stores the text box's string, and `onIncreaseFontSize` then computes `fontSize + 1`, which concatenates on a string | type 18 in the font-size box, then press "+": the size becomes "181"; pressing "-" then gives 180 | "+" makes the size one point larger (19), as "-" makes it one smaller | high, not executed | MultiBufferEditor.TypedEighteenThenPlus | MultiBufferEditor.FontStepsCancel |
