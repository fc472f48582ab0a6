/**
 * Workspace reconfiguration in components/Sidebar.tsx: the company-name
 * guess made when a handbook file is loaded, and the rules
 * `handleAdoptCompany` uses to merge the hosted model's parses into the
 * company configuration. How each model request ended and what
 * `JSON.parse` makes of a text are inputs.
 */
module Workspace {
  import opened Wrappers
  import opened Types
  import opened Text

  /** The setup form: `newCompanyName`, `newHandbookText`, `newHolidaysText`. */
  datatype SetupForm = SetupForm(companyName: string, handbookText: string, holidaysText: string)

  // ---------------------------------------------------------------------
  // The company name guessed from an uploaded file
  // ---------------------------------------------------------------------

  /** The longest a first line may be for the file to rename the company. */
  const MaxTitleLength := 50

  /** `text.split('\n')[0]`: everything before the first line feed. */
  function FirstLine(text: string): (line: string)
    ensures |line| <= |text| && line == text[..|line|]
    ensures forall i :: 0 <= i < |line| ==> line[i] != '\n'
    ensures |line| < |text| ==> text[|line|] == '\n'
  {
    if |text| == 0 || text[0] == '\n' then "" else [text[0]] + FirstLine(text[1..])
  }

  /** The characters `/[^a-zA-Z ]/g` does not match. */
  predicate IsNameChar(c: char) {
    ('a' <= c <= 'z') || ('A' <= c <= 'Z') || c == ' '
  }

  /** `s.replace(/[^a-zA-Z ]/g, "")`: the letters and spaces of `s`, in order. */
  function KeepNameChars(s: string): (r: string)
    ensures |r| <= |s|
    ensures forall i :: 0 <= i < |r| ==> IsNameChar(r[i])
  {
    if |s| == 0 then ""
    else (if IsNameChar(s[0]) then [s[0]] else []) + KeepNameChars(s[1..])
  }

  /** A string that is letters and spaces only passes the filter unchanged. */
  lemma {:induction false} KeepNameCharsOfName(s: string)
    requires forall i :: 0 <= i < |s| ==> IsNameChar(s[i])
    ensures KeepNameChars(s) == s
  {
    if |s| > 0 {
      KeepNameCharsOfName(s[1..]);
    }
  }

  /** A character outside `[a-zA-Z ]` is removed, not replaced. */
  lemma KeepNameCharsDrops(c: char)
    requires !IsNameChar(c)
    ensures KeepNameChars([c]) == []
  {
  }

  /** Filtering distributes over concatenation: no character's fate depends on its neighbours. */
  lemma {:induction false} KeepNameCharsConcat(a: string, b: string)
    ensures KeepNameChars(a + b) == KeepNameChars(a) + KeepNameChars(b)
  {
    if |a| > 0 {
      assert (a + b)[0] == a[0] && (a + b)[1..] == a[1..] + b;
      KeepNameCharsConcat(a[1..], b);
    } else {
      assert a + b == b;
    }
  }

  predicate AllSpaces(s: string) {
    forall i :: 0 <= i < |s| ==> s[i] == ' '
  }

  /**
   * Trimming a string of letters and spaces leaves letters and spaces with
   * no space at either end, and leaves nothing exactly when there were
   * only spaces.
   */
  lemma TrimNameChars(s: string)
    requires forall i :: 0 <= i < |s| ==> IsNameChar(s[i])
    ensures var r := Trim(s);
            && |r| <= |s|
            && (forall i :: 0 <= i < |r| ==> IsNameChar(r[i]))
            && (r != [] ==> r[0] != ' ' && r[|r| - 1] != ' ')
            && (r == [] <==> AllSpaces(s))
  {
    var r := Trim(s);
    var lo :| TrimmedAt(s, r, lo);
    assert forall i :: 0 <= i < |r| ==> r[i] == s[lo + i];
    if r == [] {
      forall i | 0 <= i < |s|
        ensures s[i] == ' '
      {
        assert IsJsWhitespace(s[i]) && IsNameChar(s[i]);
      }
    } else {
      var i :| 0 <= i < |s| && !IsJsWhitespace(s[i]);
      assert s[i] != ' ';
    }
  }

  /**
   * The name guessed from a file: the letters and spaces of its first
   * line, with the white space around them trimmed. It holds no other
   * characters, neither starts nor ends with a space, and is empty exactly
   * when the first line has no letter.
   */
  function NameFromFile(text: string): (name: string)
    ensures exists lo :: TrimmedAt(KeepNameChars(FirstLine(text)), name, lo)
    ensures name == [] <==> AllSpaces(KeepNameChars(FirstLine(text)))
    ensures |name| <= |FirstLine(text)|
    ensures forall i :: 0 <= i < |name| ==> IsNameChar(name[i])
    ensures name != [] ==> name[0] != ' ' && name[|name| - 1] != ' '
  {
    var kept := KeepNameChars(FirstLine(text));
    TrimNameChars(kept);
    Trim(kept)
  }

  /** A guessed name, read as a file of its own, yields itself: the heuristic is idempotent. */
  lemma NameFromFileIdempotent(text: string)
    ensures NameFromFile(NameFromFile(text)) == NameFromFile(text)
  {
    var name := NameFromFile(text);
    assert FirstLine(name) == name;
    KeepNameCharsOfName(name);
    TrimTwice(KeepNameChars(FirstLine(text)));
  }

  /**
   * `reader.onload` for a chosen file (`None` when no file was chosen):
   * the handbook text becomes the file's contents, and the company name is
   * replaced by the guessed name when the file is non-empty and its first
   * line is shorter than 50 characters.
   */
  function FileUpload(form: SetupForm, file: Option<string>): (r: SetupForm)
    ensures file.None? ==> r == form
    ensures file.Some? ==> r.handbookText == file.value && r.holidaysText == form.holidaysText
    ensures file.Some? && |file.value| > 0 && |FirstLine(file.value)| < MaxTitleLength ==>
              r.companyName == NameFromFile(file.value) && |r.companyName| < MaxTitleLength
    ensures file.Some? && (|file.value| == 0 || |FirstLine(file.value)| >= MaxTitleLength) ==>
              r.companyName == form.companyName
  {
    match file
    case None => form
    case Some(text) =>
      var name := if |text| > 0 && |FirstLine(text)| < MaxTitleLength then NameFromFile(text) else form.companyName;
      SetupForm(name, text, form.holidaysText)
  }

  // ---------------------------------------------------------------------
  // Adopting the workspace
  // ---------------------------------------------------------------------

  /** How one parse request ended: its promise rejected, or it resolved with a response text (absent when empty). */
  datatype FieldCall = Rejected | Resolved(text: Option<string>)

  /** What `JSON.parse` gives: an array, some other value, or a SyntaxError. */
  datatype Json<T> = JsonArray(items: seq<T>) | JsonNotArray | JsonSyntaxError

  /** `res.text || "[]"`: the response text, or an empty array when there is none. */
  function JsonText(text: Option<string>): (j: string)
    ensures text.Some? && text.value != "" ==> j == text.value
    ensures text.None? || text == Some("") ==> j == "[]"
  {
    if text.Some? && text.value != "" then text.value else "[]"
  }

  /**
   * A field's value once its request has settled: the old value when the
   * form text for it is blank (no request is made), when the response is
   * not a JSON array, or when it does not parse; otherwise the parsed array.
   */
  function FieldAfter<T>(previous: seq<T>, formText: string, call: FieldCall, parse: string -> Json<T>): (r: seq<T>)
    ensures IsBlank(formText) ==> r == previous
    ensures !IsBlank(formText) && call.Resolved? ==>
              match parse(JsonText(call.text))
              case JsonArray(items) => r == items
              case _ => r == previous
  {
    if IsBlank(formText) then previous
    else match call
      case Rejected => previous
      case Resolved(text) =>
        match parse(JsonText(text))
        case JsonArray(items) => items
        case _ => previous
  }

  /** An empty response replaces the field by an empty list, since `"[]"` parses as one. */
  lemma EmptyResponseClearsField<T>(previous: seq<T>, formText: string, text: Option<string>, parse: string -> Json<T>)
    requires parse("[]") == JsonArray([])
    requires !IsBlank(formText)
    requires text.None? || text == Some("")
    ensures FieldAfter(previous, formText, Resolved(text), parse) == []
  {
    assert JsonText(text) == "[]";
  }

  /** Adoption goes to the fallback path: the client could not be set up or an issued request rejected. */
  predicate AdoptionFails(form: SetupForm, setupFails: bool, holidaysCall: FieldCall, handbookCall: FieldCall) {
    || setupFails
    || (!IsBlank(form.holidaysText) && holidaysCall.Rejected?)
    || (!IsBlank(form.handbookText) && handbookCall.Rejected?)
  }

  /**
   * `handleAdoptCompany`: the configuration handed to `onUpdateCompany`,
   * or `None` when the name is blank and nothing happens. The name is
   * taken exactly as typed. On the fallback path only the name changes;
   * otherwise each list is decided by its own request alone.
   */
  method AdoptCompany(company: CompanyConfig, form: SetupForm, setupFails: bool,
                      holidaysCall: FieldCall, handbookCall: FieldCall,
                      parseHolidays: string -> Json<Holiday>,
                      parseSections: string -> Json<HandbookSection>)
    returns (r: Option<CompanyConfig>)
    ensures IsBlank(form.companyName) ==> r.None?
    ensures !IsBlank(form.companyName) && AdoptionFails(form, setupFails, holidaysCall, handbookCall) ==>
              r == Some(company.(name := form.companyName))
    ensures !IsBlank(form.companyName) && !AdoptionFails(form, setupFails, holidaysCall, handbookCall) ==>
              && r.Some? && r.value.name == form.companyName
              && r.value.holidays == FieldAfter(company.holidays, form.holidaysText, holidaysCall, parseHolidays)
              && r.value.handbookSections == FieldAfter(company.handbookSections, form.handbookText, handbookCall, parseSections)
  {
    if IsBlank(form.companyName) {
      return None;
    }
    if setupFails {
      return Some(company.(name := form.companyName));
    }
    var parsedHolidays := company.holidays;
    var parsedSections := company.handbookSections;
    var tasks: seq<FieldCall> := [];
    if !IsBlank(form.holidaysText) {
      tasks := tasks + [holidaysCall];
      if holidaysCall.Resolved? {
        var data := parseHolidays(JsonText(holidaysCall.text));
        if data.JsonArray? {
          parsedHolidays := data.items;
        }
      }
    }
    if !IsBlank(form.handbookText) {
      tasks := tasks + [handbookCall];
      if handbookCall.Resolved? {
        var data := parseSections(JsonText(handbookCall.text));
        if data.JsonArray? {
          parsedSections := data.items;
        }
      }
    }
    if Rejected in tasks {
      return Some(company.(name := form.companyName));
    }
    return Some(CompanyConfig(form.companyName, parsedSections, parsedHolidays));
  }
}
