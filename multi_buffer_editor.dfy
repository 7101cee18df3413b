/**
 * The editor panel that keeps one stored program per language
 * (src/EditorContainer.jsx). `code` maps every language to its stored
 * text, `codeRef` is the live buffer the editor widget writes into,
 * `key` forces the widget to remount, and `options` is the settings record
 * the settings panel updates.
 */
module MultiBufferEditor {
  import opened Options
  import opened Lang
  import opened Text
  import opened Files
  import opened Editing

  /** `defaultCodes`. */
  function DefaultCode(l: Language): string {
    match l
    case Cpp => "#include<iostream>\nusing namespace std;\nint main(){\n    cout<<\"Hello World!\"<<endl;\n    return 0;\n}\n"
    case JavaScript => "console.log(\"Hello World!\")"
    case Python => "print(\"Hello World!\")"
    case Java => "class Main {\n    public static void main(String[] args) {\n        System.out.println(\"Hello World!\");\n    }\n}\n"
  }

  /** `{ ...defaultCodes }`. */
  function DefaultCodes(): (m: map<Language, string>)
    ensures forall l: Language :: l in m && m[l] == DefaultCode(l)
  {
    AllLanguagesComplete();
    map l | l in AllLanguages :: DefaultCode(l)
  }

  datatype WordWrap = On | Off

  /** A font size as the settings panel leaves it: a number (the default
      and every result of a numeric step), the raw text typed into the size
      box (`event.target.value` is a string), or a number that is not an
      integer (NaN or a fraction, which further steps keep that way). */
  datatype FontSize = Px(n: int) | Typed(text: string) | NotInteger

  /** `Number(size)` where it is an integer. Typed text is read as a plain
      decimal numeral; any other text counts as not an integer. */
  function NumericValue(v: FontSize): (r: Option<int>)
    ensures v.Px? ==> r == Some(v.n)
    ensures v.Typed? ==> (r.Some? <==> AllDigits(v.text))
    ensures v.Typed? && r.Some? ==> r.value >= 0 && r.value == DigitsValue(v.text)
    ensures v.NotInteger? ==> r.None?
  {
    match v
    case Px(n) => Some(n)
    case Typed(t) => if AllDigits(t) then Some(DigitsValue(t)) else None
    case NotInteger => None
  }

  /** `size - 1`: JavaScript converts a string operand to a number. */
  function Decremented(v: FontSize): (r: FontSize)
    ensures r.Px? <==> NumericValue(v).Some?
    ensures r.Px? ==> r.n == NumericValue(v).value - 1
    ensures NumericValue(v).None? ==> r == NotInteger
  {
    match NumericValue(v)
    case Some(n) => Px(n - 1)
    case None => NotInteger
  }

  /** `size + 1` as the source evaluates it: on a string operand `+`
      concatenates, so typed text gets the digit "1" appended. */
  function IncrementedAsWritten(v: FontSize): (r: FontSize)
    ensures v.Px? ==> r == Px(v.n + 1)
    ensures v.Typed? ==> r == Typed(v.text + "1")
    ensures v.NotInteger? ==> r == NotInteger
  {
    match v
    case Px(n) => Px(n + 1)
    case Typed(t) => Typed(t + "1")
    case NotInteger => NotInteger
  }

  /** The numeric step the "+" button is meant to take, converting a typed
      size to a number first as `-` does. */
  function Incremented(v: FontSize): (r: FontSize)
    ensures r.Px? <==> NumericValue(v).Some?
    ensures r.Px? ==> r.n == NumericValue(v).value + 1
    ensures NumericValue(v).None? ==> r == NotInteger
  {
    match NumericValue(v)
    case Some(n) => Px(n + 1)
    case None => NotInteger
  }

  /** The editor options record. */
  datatype EditorOptions = EditorOptions(fontSize: FontSize, wordWrap: WordWrap, theme: Theme, lineNumbersMinChars: int)

  const DefaultEditorOptions := EditorOptions(Px(16), On, VsLight, 2)

  /** `onChangeThemeSettings`'s updater: flips the theme, keeps the rest. */
  function WithToggledTheme(o: EditorOptions): (r: EditorOptions)
    ensures r.theme != o.theme
    ensures r.(theme := o.theme) == o
  {
    o.(theme := ToggledTheme(o.theme))
  }

  /** `toggleWordWrap`'s updater: flips word wrap, keeps the rest. */
  function WithToggledWrap(o: EditorOptions): (r: EditorOptions)
    ensures r.wordWrap != o.wordWrap
    ensures r.(wordWrap := o.wordWrap) == o
  {
    o.(wordWrap := if o.wordWrap == On then Off else On)
  }

  /** `onIncreaseFontSize`'s updater as written. */
  function WithLargerFontAsWritten(o: EditorOptions): (r: EditorOptions)
    ensures r.fontSize == IncrementedAsWritten(o.fontSize)
    ensures r.(fontSize := o.fontSize) == o
  {
    o.(fontSize := IncrementedAsWritten(o.fontSize))
  }

  /** `onIncreaseFontSize`'s updater as intended: one point larger. */
  function WithLargerFont(o: EditorOptions): (r: EditorOptions)
    ensures r.fontSize == Incremented(o.fontSize)
    ensures r.(fontSize := o.fontSize) == o
  {
    o.(fontSize := Incremented(o.fontSize))
  }

  /** `onDecreaseFontSize`'s updater. */
  function WithSmallerFont(o: EditorOptions): (r: EditorOptions)
    ensures r.fontSize == Decremented(o.fontSize)
    ensures r.(fontSize := o.fontSize) == o
  {
    o.(fontSize := Decremented(o.fontSize))
  }

  /** `setFontSize`'s updater: stores the text box's string as is. */
  function WithTypedFont(o: EditorOptions, text: string): (r: EditorOptions)
    ensures r.fontSize == Typed(text) && r.(fontSize := o.fontSize) == o
  {
    o.(fontSize := Typed(text))
  }

  lemma ThemeToggleIsInvolution(o: EditorOptions)
    ensures WithToggledTheme(WithToggledTheme(o)) == o
  {
  }

  lemma WrapToggleIsInvolution(o: EditorOptions)
    ensures WithToggledWrap(WithToggledWrap(o)) == o
  {
  }

  /** With the intended step, "+" then "-" (or "-" then "+") restores the
      font size's numeric value, restores a numeric size exactly, and
      enforces no bound. */
  lemma FontStepsCancel(o: EditorOptions)
    ensures NumericValue(WithSmallerFont(WithLargerFont(o)).fontSize) == NumericValue(o.fontSize)
    ensures NumericValue(WithLargerFont(WithSmallerFont(o)).fontSize) == NumericValue(o.fontSize)
    ensures o.fontSize.Px? ==> WithSmallerFont(WithLargerFont(o)) == o && WithLargerFont(WithSmallerFont(o)) == o
  {
  }

  /** As written, "+" then "-" restores a numeric size. */
  lemma FontStepsCancelAsWrittenOnNumbers(o: EditorOptions)
    requires o.fontSize.Px?
    ensures WithSmallerFont(WithLargerFontAsWritten(o)) == o
  {
  }

  /** As written, "+" on a typed size appends a digit: the size becomes
      ten times the typed number plus one. */
  lemma {:induction false} LargerAsWrittenAppendsDigit(o: EditorOptions, text: string)
    requires AllDigits(text)
    ensures NumericValue(WithLargerFontAsWritten(WithTypedFont(o, text)).fontSize) == Some(DigitsValue(text) * 10 + 1)
  {
    var t := text + "1";
    assert AllDigits(t);
    assert t[..|t| - 1] == text;
  }

  /** The discrepancy on a concrete input: typing 18 into the size box and
      pressing "+" gives 181, and "-" afterwards gives 180, not 18. */
  lemma {:induction false} TypedEighteenThenPlus(o: EditorOptions)
    ensures WithLargerFontAsWritten(WithTypedFont(o, "18")).fontSize == Typed("181")
    ensures NumericValue(WithLargerFontAsWritten(WithTypedFont(o, "18")).fontSize) == Some(181)
    ensures WithSmallerFont(WithLargerFontAsWritten(WithTypedFont(o, "18"))).fontSize == Px(180)
    ensures NumericValue(WithLargerFont(WithTypedFont(o, "18")).fontSize) == Some(19)
  {
    assert AllDigits("18") by {
      assert "18"[0] == '1' && "18"[1] == '8';
    }
    assert DigitsValue("18") == 18 by {
      assert "18"[..1] == "1";
      assert "1"[..0] == "";
    }
    LargerAsWrittenAppendsDigit(o, "18");
    assert "18" + "1" == "181";
  }

  class Editor {
    var code: map<Language, string>
    var codeRef: string
    var key: int
    var language: Language
    var isSettingsOpen: bool
    var isFullScreen: bool
    var options: EditorOptions

    /** Every language has a stored program. */
    ghost predicate Valid()
      reads this
    {
      forall l: Language :: l in code
    }

    constructor ()
      ensures Valid()
      ensures code == DefaultCodes() && language == Cpp && codeRef == DefaultCode(Cpp)
      ensures key == 0 && !isSettingsOpen && !isFullScreen && options == DefaultEditorOptions
    {
      code := DefaultCodes();
      key := 0;
      language := Cpp;
      isSettingsOpen := false;
      isFullScreen := false;
      options := DefaultEditorOptions;
      codeRef := DefaultCode(Cpp);
    }

    /** `onChangeCode`: the widget reports an edit into the live buffer. */
    method OnChangeCode(newCode: string)
      modifies this`codeRef
      ensures codeRef == newCode
    {
      codeRef := newCode;
    }

    /** `onUploadCode`: a picked text file becomes the current language's
        stored program and the live buffer, and remounts the widget; a file
        of another type raises an alert; no file does nothing. */
    method OnUploadCode(file: Option<Upload>) returns (alert: Option<string>)
      requires Valid()
      modifies this`code, this`key, this`codeRef
      ensures Valid()
      ensures file.None? ==> alert.None? && code == old(code) && key == old(key) && codeRef == old(codeRef)
      ensures file.Some? && !IsTextFile(file.value) ==>
        alert == Some(PleaseChooseText) && code == old(code) && key == old(key) && codeRef == old(codeRef)
      ensures file.Some? && IsTextFile(file.value) ==>
        && alert.None?
        && code == old(code)[language := file.value.contents]
        && key == old(key) + 1
        && codeRef == file.value.contents
    {
      alert := None;
      if file.Some? {
        if IsTextFile(file.value) {
          var importedCode := file.value.contents;
          code := code[language := importedCode];
          key := key + 1;
          codeRef := importedCode;
        } else {
          alert := Some(PleaseChooseText);
        }
      }
    }

    /** `exportCode`: refuses with an alert when the trimmed buffer is
        empty, and otherwise downloads the trimmed buffer as `code.<ext>`. */
    method ExportCode() returns (r: ExportOutcome)
      ensures r.Alerted? <==> IsBlank(codeRef)
      ensures r.Alerted? ==> r.message == PleaseEnterCode
      ensures r.Saved? ==> r.file == Download(ExportFileName(language), Trim(codeRef))
    {
      r := Export(codeRef, ExportFileName(language), PleaseEnterCode);
    }

    /** `onChangeLanguage`: the live buffer is stored in the old language's
        slot and the new language's stored program becomes the buffer.
        The new program is read before the store, so choosing the current
        language again swaps the buffer for the previously stored text. */
    method OnChangeLanguage(newLanguage: Language)
      requires Valid()
      modifies this`code, this`language, this`codeRef
      ensures Valid()
      ensures code == old(code)[old(language) := old(codeRef)]
      ensures language == newLanguage
      ensures codeRef == old(code)[newLanguage]
    {
      var newCode := code[newLanguage];
      var currentCode := codeRef;
      code := code[language := currentCode];
      language := newLanguage;
      codeRef := newCode;
    }

    method OnChangeThemeSettings()
      modifies this`options
      ensures options == WithToggledTheme(old(options))
    {
      options := WithToggledTheme(options);
    }

    method OnToggleSettings()
      modifies this`isSettingsOpen
      ensures isSettingsOpen == !old(isSettingsOpen)
    {
      isSettingsOpen := !isSettingsOpen;
    }

    /** `onIncreaseFontSize`, with the numeric step the button is meant to
        take (the source's `+` concatenates on a typed size; see
        `WithLargerFontAsWritten`). */
    method OnIncreaseFontSize()
      modifies this`options
      ensures options == WithLargerFont(old(options))
    {
      options := WithLargerFont(options);
    }

    method OnDecreaseFontSize()
      modifies this`options
      ensures options == WithSmallerFont(old(options))
    {
      options := WithSmallerFont(options);
    }

    /** `setFontSize`: the size box's text is stored as typed. */
    method SetFontSize(text: string)
      modifies this`options
      ensures options == WithTypedFont(old(options), text)
    {
      options := WithTypedFont(options, text);
    }

    method ToggleWordWrap()
      modifies this`options
      ensures options == WithToggledWrap(old(options))
    {
      options := WithToggledWrap(options);
    }

    /** `fullScreen`: commits the live buffer to the current slot and
        flips full-screen mode. */
    method FullScreen()
      requires Valid()
      modifies this`code, this`isFullScreen
      ensures Valid()
      ensures code == old(code)[language := codeRef]
      ensures isFullScreen == !old(isFullScreen)
    {
      code := code[language := codeRef];
      isFullScreen := !isFullScreen;
    }

    /** `onRunCode`: leaves full-screen mode if it was on (committing the
        buffer), and hands the live buffer and the language to `runCode`. */
    method OnRunCode() returns (runCode: string, runLanguage: Language)
      requires Valid()
      modifies this`code, this`isFullScreen
      ensures Valid()
      ensures !isFullScreen
      ensures code == if old(isFullScreen) then old(code)[language := codeRef] else old(code)
      ensures runCode == codeRef && runLanguage == language
    {
      if isFullScreen {
        FullScreen();
      }
      runCode, runLanguage := codeRef, language;
    }

    /** `clearCode`: empties the buffer and the current slot only. */
    method ClearCode()
      requires Valid()
      modifies this`code, this`codeRef
      ensures Valid()
      ensures codeRef == "" && code == old(code)[language := ""]
    {
      codeRef := "";
      code := code[language := ""];
    }

    /** `resetCode`: restores the current language's default program in
        the buffer and the current slot, and remounts the widget. */
    method ResetCode()
      requires Valid()
      modifies this`code, this`codeRef, this`key
      ensures Valid()
      ensures codeRef == DefaultCode(language) && code == old(code)[language := DefaultCode(language)]
      ensures key == old(key) + 1
    {
      var defaultCode := DefaultCode(language);
      codeRef := defaultCode;
      code := code[language := defaultCode];
      key := key + 1;
    }
  }

  /** Switching to another language and back, with no edit in between,
      restores the buffer exactly; the only stored change is that the
      first language's slot now holds that buffer. */
  method SwitchAndBack(e: Editor, other: Language)
    requires e.Valid() && other != e.language
    modifies e
    ensures e.Valid()
    ensures e.language == old(e.language) && e.codeRef == old(e.codeRef)
    ensures e.code == old(e.code)[old(e.language) := old(e.codeRef)]
  {
    var first := e.language;
    e.OnChangeLanguage(other);
    e.OnChangeLanguage(first);
  }

  /** Clearing touches the current slot only. */
  method ClearKeepsOtherSlots(e: Editor, l: Language)
    requires e.Valid() && l != e.language
    modifies e
    ensures e.Valid() && e.language == old(e.language)
    ensures e.code[l] == old(e.code[l]) && e.code[e.language] == ""
  {
    e.ClearCode();
  }
}
