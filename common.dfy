/** Option, as used for absent values and for operations that can fail. */
module Options {
  datatype Option<+T> = None | Some(value: T)
}

/** The four languages the editor's language selector offers. */
module Lang {
  datatype Language = Cpp | Python | JavaScript | Java

  const AllLanguages: set<Language> := {Cpp, Python, JavaScript, Java}

  lemma AllLanguagesComplete()
    ensures forall l: Language :: l in AllLanguages
  {
    forall l: Language ensures l in AllLanguages {
      match l
      case Cpp =>
      case Python =>
      case JavaScript =>
      case Java =>
    }
  }
}

/**
 * String helpers whose JavaScript counterparts are built-ins:
 * `String.prototype.trim`, `String.prototype.includes` and the decimal
 * rendering of a number inside a template literal.
 */
module Text {

  /** The code points ECMAScript counts as WhiteSpace or LineTerminator,
      i.e. the ones `trim` strips from both ends of a string. */
  predicate IsWhitespace(c: char) {
    || c == '\t' || c == '\n' || c == '\U{000B}' || c == '\U{000C}' || c == '\r'
    || c == ' ' || c == '\U{00A0}' || c == '\U{1680}'
    || ('\U{2000}' <= c <= '\U{200A}')
    || c == '\U{2028}' || c == '\U{2029}' || c == '\U{202F}' || c == '\U{205F}'
    || c == '\U{3000}' || c == '\U{FEFF}'
  }

  predicate IsBlank(s: string) {
    forall i :: 0 <= i < |s| ==> IsWhitespace(s[i])
  }

  /** Number of whitespace characters at the start of `s`. */
  function LeadingSpace(s: string): (n: nat)
    ensures n <= |s|
    ensures forall i :: 0 <= i < n ==> IsWhitespace(s[i])
    ensures n < |s| ==> !IsWhitespace(s[n])
  {
    if s == [] || !IsWhitespace(s[0]) then 0 else 1 + LeadingSpace(s[1..])
  }

  /** Number of whitespace characters at the end of `s`. */
  function TrailingSpace(s: string): (n: nat)
    ensures n <= |s|
    ensures forall i :: |s| - n <= i < |s| ==> IsWhitespace(s[i])
    ensures n < |s| ==> !IsWhitespace(s[|s| - 1 - n])
  {
    if s == [] || !IsWhitespace(s[|s| - 1]) then 0 else 1 + TrailingSpace(s[..|s| - 1])
  }

  /** `s.trim()`: the longest infix of `s` that neither starts nor ends
      with whitespace, everything cut off being whitespace. */
  function Trim(s: string): (r: string)
    ensures LeadingSpace(s) + |r| <= |s|
    ensures r == s[LeadingSpace(s)..LeadingSpace(s) + |r|]
    ensures forall i :: 0 <= i < LeadingSpace(s) || LeadingSpace(s) + |r| <= i < |s| ==> IsWhitespace(s[i])
    ensures r != [] ==> !IsWhitespace(r[0]) && !IsWhitespace(r[|r| - 1])
  {
    var rest := s[LeadingSpace(s)..];
    rest[..|rest| - TrailingSpace(rest)]
  }

  /** `!s.trim()` holds exactly when every character of `s` is whitespace. */
  lemma TrimEmptyIffBlank(s: string)
    ensures Trim(s) == [] <==> IsBlank(s)
  {
    if Trim(s) != [] {
      var k := LeadingSpace(s);
      assert s[k] == Trim(s)[0];
    }
  }

  /** Trimming twice is trimming once. */
  lemma TrimIdempotent(s: string)
    ensures Trim(Trim(s)) == Trim(s)
  {
    var r := Trim(s);
    if r != [] {
      assert LeadingSpace(r) == 0;
      assert TrailingSpace(r) == 0;
    }
  }

  /** `s.includes(part)`. */
  predicate HasInfix(s: string, part: string)
    decreases |s|
  {
    if |s| < |part| then false
    else s[..|part|] == part || HasInfix(s[1..], part)
  }

  /** `part` appears in `s` starting at index `i`. */
  predicate OccursAt(s: string, part: string, i: int) {
    0 <= i && i + |part| <= |s| && s[i..i + |part|] == part
  }

  /** `HasInfix` holds exactly when `part` appears at some index of `s`. */
  lemma {:induction false} HasInfixIffOccurs(s: string, part: string)
    ensures HasInfix(s, part) <==> exists i :: OccursAt(s, part, i)
    decreases |s|
  {
    if |s| < |part| {
      return;
    }
    if s[..|part|] == part {
      assert OccursAt(s, part, 0);
      return;
    }
    // Here `part` is non-empty, so `s` is too.
    HasInfixIffOccurs(s[1..], part);
    if HasInfix(s, part) {
      var j :| OccursAt(s[1..], part, j);
      assert s[1..][j..j + |part|] == s[j + 1..j + 1 + |part|];
      assert OccursAt(s, part, j + 1);
    } else {
      forall i | 0 <= i
        ensures !OccursAt(s, part, i)
      {
        if i == 0 {
          assert s[0..|part|] == s[..|part|];
        } else if i + |part| <= |s| {
          assert s[1..][i - 1..i - 1 + |part|] == s[i..i + |part|];
          assert !OccursAt(s[1..], part, i - 1);
        }
      }
    }
  }

  predicate IsDigit(c: char) { '0' <= c <= '9' }

  predicate AllDigits(s: string) {
    forall i :: 0 <= i < |s| ==> IsDigit(s[i])
  }

  function DigitChar(d: nat): (c: char)
    requires d < 10
    ensures IsDigit(c) && c as int - '0' as int == d
  {
    ('0' as int + d) as char
  }

  /** The number a string of decimal digits denotes (the empty string
      denotes 0, as `Number("")` does). */
  function DigitsValue(s: string): nat
    requires AllDigits(s)
  {
    if s == [] then 0
    else DigitsValue(s[..|s| - 1]) * 10 + (s[|s| - 1] as int - '0' as int)
  }

  /** Decimal rendering of a natural number, as `${n}` produces it. */
  function Decimal(n: nat): (r: string)
    ensures r != [] && AllDigits(r)
    ensures |r| > 1 ==> r[0] != '0'
  {
    if n < 10 then [DigitChar(n)] else Decimal(n / 10) + [DigitChar(n % 10)]
  }

  /** Reading back a rendered number gives the number. */
  lemma {:induction false} DecimalRoundTrip(n: nat)
    ensures DigitsValue(Decimal(n)) == n
  {
    if n >= 10 {
      DecimalRoundTrip(n / 10);
      var r := Decimal(n);
      assert r[..|r| - 1] == Decimal(n / 10);
    }
  }
}

/** The `{ apiStatus, data, message }` objects both execution clients hand
    to the UI callback. */
module Events {
  datatype Event<+D> = Loading | Success(data: D) | Error(message: string) {
    predicate IsTerminal() { !Loading? }
  }

  /** The message of every `catch` branch: `JSON.stringify` of an Error
      object, whose properties are not enumerable, is "{}". */
  const SerializedError := "{}"

  /** A callback trace that starts with `loading` and carries at most one
      terminal event after it (the empty trace: no callback at all). */
  predicate AtMostOneTerminal<D>(t: seq<Event<D>>) {
    t == [] || (t[0] == Loading && |t| <= 2 && (|t| == 2 ==> t[1].IsTerminal()))
  }
}

/** Browser file import and export, reduced to the outcomes the handlers
    decide on. */
module Files {
  import opened Text

  /** A file picked in an `<input type="file">`: its MIME type and the
      text a FileReader reads from it. */
  datatype Upload = Upload(mimeType: string, contents: string)

  /** The guard of every upload handler: `file.type.includes("text")`. */
  predicate IsTextFile(f: Upload): (b: bool)
    ensures b <==> exists i :: OccursAt(f.mimeType, "text", i)
  {
    HasInfixIffOccurs(f.mimeType, "text");
    HasInfix(f.mimeType, "text")
  }

  /** A download link the handler clicks: the file name and the blob text. */
  datatype Download = Download(fileName: string, contents: string)

  datatype ExportOutcome = Saved(file: Download) | Alerted(message: string)

  /** The export guard shared by `exportOutput` and `exportCode`: the
      trimmed text is saved unless it is empty, which raises an alert. */
  function Export(text: string, fileName: string, emptyAlert: string): (r: ExportOutcome)
    ensures r.Alerted? <==> IsBlank(text)
    ensures r.Alerted? ==> r.message == emptyAlert
    ensures r.Saved? ==> r.file.fileName == fileName && r.file.contents == Trim(text)
    ensures r.Saved? ==> r.file.contents != [] && !IsWhitespace(r.file.contents[0])
  {
    TrimEmptyIffBlank(text);
    var t := Trim(text);
    if t == [] then Alerted(emptyAlert) else Saved(Download(fileName, t))
  }
}

/** Editor settings shared by both editor containers. */
module Editing {
  import opened Options
  import opened Lang

  datatype Theme = VsLight | VsDark

  /** `theme === "vs-light" ? "vs-dark" : "vs-light"`. */
  function ToggledTheme(t: Theme): (r: Theme)
    ensures r != t
  {
    if t == VsLight then VsDark else VsLight
  }

  lemma ToggledThemeInvolution(t: Theme)
    ensures ToggledTheme(ToggledTheme(t)) == t
  {
  }

  /** `fileExtensionMapping`. */
  function FileExtension(l: Language): (ext: string)
    ensures ext != []
    ensures LanguageOfExtension(ext) == Some(l)
  {
    match l
    case Cpp => "cpp"
    case JavaScript => "js"
    case Python => "py"
    case Java => "java"
  }

  /** The inverse of `FileExtension`. */
  function LanguageOfExtension(ext: string): Option<Language> {
    if ext == "cpp" then Some(Cpp)
    else if ext == "js" then Some(JavaScript)
    else if ext == "py" then Some(Python)
    else if ext == "java" then Some(Java)
    else None
  }

  /** `code.${fileExtensionMapping[language]}`. */
  function ExportFileName(l: Language): (name: string)
    ensures |name| > 5 && name[..5] == "code." && LanguageOfExtension(name[5..]) == Some(l)
  {
    "code." + FileExtension(l)
  }

  const PleaseEnterCode := "Please enter some code"
  const PleaseChooseText := "Please choose a text file"
}
