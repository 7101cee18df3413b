/**
 * The editor panel that keeps a single program (src/EditorContainer.js):
 * `code` is the text the editor widget is given, `codeRef` the live buffer
 * it writes into, `key` forces the widget to remount, and `theme` is the
 * widget's colour theme. Changing language discards the program.
 */
module SingleBufferEditor {
  import opened Options
  import opened Lang
  import opened Text
  import opened Files
  import opened Editing

  /** `defaultCodes`; this variant's Java program opens with a note. */
  function DefaultCode(l: Language): string {
    match l
    case Cpp => "#include<iostream>\nusing namespace std;\nint main(){\n    cout<<\"Hello World!\"<<endl;\n    return 0;\n}\n"
    case JavaScript => "console.log(\"Hello World!\")"
    case Python => "print(\"Hello World!\")"
    case Java => "// Note: Please ensure your code is within the Main class to avoid errors.\nclass Main {\n    public static void main(String[] args) {\n        System.out.println(\"Hello World!\");\n    }\n}\n"
  }

  class Editor {
    var code: string
    var codeRef: string
    var key: int
    var language: Language
    var theme: Theme
    var isFullScreen: bool

    constructor ()
      ensures code == DefaultCode(Cpp) && codeRef == code && language == Cpp
      ensures key == 0 && theme == VsLight && !isFullScreen
    {
      code := DefaultCode(Cpp);
      key := 0;
      language := Cpp;
      theme := VsLight;
      isFullScreen := false;
      codeRef := code;
    }

    /** `onChangeCode`: the widget reports an edit into the live buffer. */
    method OnChangeCode(newCode: string)
      modifies this`codeRef
      ensures codeRef == newCode
    {
      codeRef := newCode;
    }

    /** `onUploadCode`: a picked text file becomes the program and the live
        buffer and remounts the widget; a file of another type raises an
        alert; no file does nothing. */
    method OnUploadCode(file: Option<Upload>) returns (alert: Option<string>)
      modifies this`code, this`key, this`codeRef
      ensures file.None? ==> alert.None? && code == old(code) && key == old(key) && codeRef == old(codeRef)
      ensures file.Some? && !IsTextFile(file.value) ==>
        alert == Some(PleaseChooseText) && code == old(code) && key == old(key) && codeRef == old(codeRef)
      ensures file.Some? && IsTextFile(file.value) ==>
        alert.None? && code == file.value.contents && key == old(key) + 1 && codeRef == file.value.contents
    {
      alert := None;
      if file.Some? {
        if IsTextFile(file.value) {
          var importedCode := file.value.contents;
          code := importedCode;
          key := key + 1;
          codeRef := importedCode;
        } else {
          alert := Some(PleaseChooseText);
        }
      }
    }

    /** `exportCode`: refuses with an alert when the trimmed buffer is
        empty, and otherwise downloads the trimmed buffer as `code.<ext>`. */
    method ExportCode() returns (r: ExportOutcome)
      ensures r.Alerted? <==> IsBlank(codeRef)
      ensures r.Alerted? ==> r.message == PleaseEnterCode
      ensures r.Saved? ==> r.file == Download(ExportFileName(language), Trim(codeRef))
    {
      r := Export(codeRef, ExportFileName(language), PleaseEnterCode);
    }

    /** `onChangeLanguage`: the buffer is discarded and both the program
        and the buffer become the new language's default program. */
    method OnChangeLanguage(newLanguage: Language)
      modifies this`code, this`language, this`codeRef
      ensures language == newLanguage
      ensures code == DefaultCode(newLanguage) && codeRef == code
    {
      var newCode := DefaultCode(newLanguage);
      language := newLanguage;
      code := newCode;
      codeRef := newCode;
    }

    /** `onChangeButtonTheme`: vs-light becomes vs-dark and back. */
    method OnChangeButtonTheme()
      modifies this`theme
      ensures theme == ToggledTheme(old(theme))
    {
      if theme == VsLight {
        theme := VsDark;
      } else {
        theme := VsLight;
      }
    }

    /** `fullScreen`: the widget is given the live buffer and full-screen
        mode flips. */
    method FullScreen()
      modifies this`code, this`isFullScreen
      ensures code == codeRef && isFullScreen == !old(isFullScreen)
    {
      code := codeRef;
      isFullScreen := !isFullScreen;
    }

    /** `onRunCode`: leaves full-screen mode without touching `code`, and
        hands the live buffer and the language to `runCode`. */
    method OnRunCode() returns (runCode: string, runLanguage: Language)
      modifies this`isFullScreen
      ensures !isFullScreen
      ensures runCode == codeRef && runLanguage == language
    {
      if isFullScreen {
        isFullScreen := !isFullScreen;
      }
      runCode, runLanguage := codeRef, language;
    }

    /** `clearCode`: empties the buffer and the program. */
    method ClearCode()
      modifies this`code, this`codeRef
      ensures codeRef == "" && code == ""
    {
      codeRef := "";
      code := codeRef;
    }

    /** `resetCode`: the current language's default program goes into the
        buffer and the program, and the widget remounts. */
    method ResetCode()
      modifies this`code, this`codeRef, this`key
      ensures codeRef == DefaultCode(language) && code == codeRef
      ensures key == old(key) + 1
    {
      var defaultCode := DefaultCode(language);
      codeRef := defaultCode;
      code := defaultCode;
      key := key + 1;
    }
  }

  /** Pressing the theme button twice restores the theme. */
  method ThemeButtonTwice(e: Editor)
    modifies e
    ensures e.theme == old(e.theme)
    ensures e.code == old(e.code) && e.codeRef == old(e.codeRef)
  {
    e.OnChangeButtonTheme();
    e.OnChangeButtonTheme();
  }

  /** Switching to another language and back loses every edit: the buffer
      is the first language's default program again. */
  method SwitchAndBack(e: Editor, other: Language)
    modifies e
    ensures e.language == old(e.language)
    ensures e.codeRef == DefaultCode(old(e.language)) && e.code == e.codeRef
  {
    var first := e.language;
    e.OnChangeLanguage(other);
    e.OnChangeLanguage(first);
  }
}
