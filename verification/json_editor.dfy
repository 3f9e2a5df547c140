/** src/pages/JsonEditor.tsx: the page that edits the working theme as JSON,
    tracks unsaved changes and validation, blocks navigation that would lose
    edits, and scans the text for colour literals. */
module JsonEditor {

  import opened Wrappers
  import opened Text
  import opened ThemeModel
  import Themes
  import opened WorkingThemeState
  import Errors = ErrorContext

  datatype ValidationState = NotValidated | Valid | Invalid

  const EmptyApplyMessage: string := "Please enter theme JSON"
  const EmptyValidateMessage: string := "Please enter theme JSON to validate"

  /** What applying non-blank text comes to: `validateThemeJson` and then
      `setWorkingThemeFromJson`, the first failure winning. */
  function ApplyOutcome(json: string, validateTheme: string -> Result<Theme>,
                        parseJson: string -> Option<Theme>): (r: Outcome)
    ensures r.Pass? <==> Themes.ValidateThemeJson(json, validateTheme).Pass? && parseJson(json).Some?
    ensures Themes.ValidateThemeJson(json, validateTheme).Fail? ==> r == Themes.ValidateThemeJson(json, validateTheme)
  {
    match Themes.ValidateThemeJson(json, validateTheme)
    case Fail(m) => Fail(m)
    case Pass => if parseJson(json).None? then Fail("Invalid theme JSON format") else Pass
  }

  /** The Validate button is disabled for example themes and for blank text. */
  predicate ValidateDisabled(isExampleTheme: bool, jsonEditorValue: string) {
    isExampleTheme || IsBlank(jsonEditorValue)
  }

  /** The Apply button is also disabled while an apply is running. */
  predicate ApplyDisabled(isExampleTheme: bool, isApplyingJson: bool, jsonEditorValue: string) {
    isExampleTheme || isApplyingJson || IsBlank(jsonEditorValue)
  }

  /** The buttons guard their handlers: Apply is disabled whenever Validate is,
      an enabled button never reaches a handler's blank-text error, and for an
      editable theme with no apply running both are disabled exactly on blank text. */
  lemma ButtonGuards(isExampleTheme: bool, isApplyingJson: bool, jsonEditorValue: string)
    ensures ValidateDisabled(isExampleTheme, jsonEditorValue) ==>
      ApplyDisabled(isExampleTheme, isApplyingJson, jsonEditorValue)
    ensures !ApplyDisabled(isExampleTheme, isApplyingJson, jsonEditorValue) ==> !IsBlank(jsonEditorValue)
    ensures !ValidateDisabled(isExampleTheme, jsonEditorValue) ==> !IsBlank(jsonEditorValue)
    ensures !isExampleTheme && !isApplyingJson ==>
      (ApplyDisabled(isExampleTheme, isApplyingJson, jsonEditorValue) <==> IsBlank(jsonEditorValue))
      && (ValidateDisabled(isExampleTheme, jsonEditorValue) <==> IsBlank(jsonEditorValue))
  {
  }

  // ---------------------------------------------------------------------------
  // Editor wiring
  // ---------------------------------------------------------------------------

  /** Monaco calls `onChange` for a user edit only when the editor is not
      read-only and a handler is attached. */
  predicate EditReachesState(readOnly: bool, handlerAttached: bool) {
    !readOnly && handlerAttached
  }

  /** The editor is read-only for example themes. */
  function ReadOnly(isExampleTheme: bool): bool {
    isExampleTheme
  }

  /** As written, the handler is attached only for example themes. */
  function HandlerAttachedAsWritten(isExampleTheme: bool): bool {
    isExampleTheme
  }

  /** As written, no user edit ever reaches `jsonEditorValue`: when the editor
      accepts input it has no handler, and when it has one it is read-only. */
  lemma AsWrittenEditsNeverReachState(isExampleTheme: bool)
    ensures !EditReachesState(ReadOnly(isExampleTheme), HandlerAttachedAsWritten(isExampleTheme))
  {
  }

  /** The wiring the page evidently means: the handler goes with the editable editor. */
  function HandlerAttached(isExampleTheme: bool): bool {
    !isExampleTheme
  }

  lemma EditsReachStateWhenEditable(isExampleTheme: bool)
    ensures EditReachesState(ReadOnly(isExampleTheme), HandlerAttached(isExampleTheme)) <==> !isExampleTheme
  {
  }

  // ---------------------------------------------------------------------------
  // The colour scan of `provideDocumentColors`
  // ---------------------------------------------------------------------------

  datatype Rgba = Rgba(red: real, green: real, blue: real, alpha: real)

  /** A colour found in the text, with the offsets of the string inside its quotes. */
  datatype ColorInfo = ColorInfo(color: Rgba, start: nat, end: nat)

  /** The first `"` at or after `from`. */
  function NextQuote(text: string, from: nat): (r: Option<nat>)
    ensures r.Some? ==> from <= r.value < |text| && text[r.value] == '"'
    ensures r.Some? ==> forall k :: from <= k < r.value ==> text[k] != '"'
    ensures r.None? ==> forall k :: from <= k < |text| ==> text[k] != '"'
    decreases |text| - from
  {
    if from >= |text| then None
    else if text[from] == '"' then Some(from)
    else NextQuote(text, from + 1)
  }

  /** `/"([^"]+)"/` matches at `i`: a quote, at least one other character, and a
      closing quote. */
  predicate MatchesAt(text: string, i: nat) {
    i < |text| && text[i] == '"' && NextQuote(text, i + 1).Some? && NextQuote(text, i + 1).value > i + 1
  }

  /** A match: the opening quote at `open`, the closing one at `close`. */
  datatype Match = Match(open: nat, close: nat)

  /** `colorRegex.exec(text)` with `lastIndex` at `from`: the leftmost match. */
  function Exec(text: string, from: nat): (r: Option<Match>)
    ensures r.Some? ==>
      && from <= r.value.open
      && r.value.open + 1 < r.value.close < |text|
      && text[r.value.open] == '"' && text[r.value.close] == '"'
    decreases |text| - from
  {
    if from >= |text| then None
    else if MatchesAt(text, from) then Some(Match(from, NextQuote(text, from + 1).value))
    else Exec(text, from + 1)
  }

  /** The closing quote of a match is the first quote after its opening one,
      so the matched string holds no quote. */
  lemma {:induction false} ExecQuoteFree(text: string, from: nat)
    requires Exec(text, from).Some?
    ensures Exec(text, from).value.close == NextQuote(text, Exec(text, from).value.open + 1).value
    ensures forall k :: Exec(text, from).value.open < k < Exec(text, from).value.close ==> text[k] != '"'
    decreases |text| - from
  {
    if !MatchesAt(text, from) {
      ExecQuoteFree(text, from + 1);
    }
  }

  /** `Exec` finds the leftmost match, and none when there is none. */
  lemma {:induction false} ExecIsLeftmost(text: string, from: nat)
    ensures Exec(text, from).Some? ==> MatchesAt(text, Exec(text, from).value.open)
    ensures Exec(text, from).Some? ==> forall i :: from <= i < Exec(text, from).value.open ==> !MatchesAt(text, i)
    ensures Exec(text, from).None? ==> forall i :: from <= i ==> !MatchesAt(text, i)
    decreases |text| - from
  {
    if from < |text| && !MatchesAt(text, from) {
      ExecIsLeftmost(text, from + 1);
    }
  }

  /** The quick rejection of strings that cannot be colours. */
  predicate SkipCandidate(s: string) {
    || |s| > 50
    || (Contains(s, " ") && !(|s| >= 3 && ToLower(s[..3]) in {"rgb", "hsl"}))
    || Contains(s, "/")
    || Contains(s, "\\")
  }

  /** The colour a match contributes, if any: its string must pass the quick
      rejection and be accepted by `parseColor`, the colour parser. */
  function Found(text: string, m: Match, parseColor: string -> Option<Rgba>): seq<ColorInfo>
    requires m.open < m.close <= |text|
  {
    var s := text[m.open + 1..m.close];
    if !SkipCandidate(s) && parseColor(s).Some?
    then [ColorInfo(parseColor(s).value, m.open + 1, m.open + |s| + 1)] else []
  }

  /** The colours found from `from` on. */
  function DocumentColorsFrom(text: string, from: nat, parseColor: string -> Option<Rgba>): seq<ColorInfo>
    decreases |text| - from
  {
    match Exec(text, from)
    case None => []
    case Some(m) => Found(text, m, parseColor) + DocumentColorsFrom(text, m.close + 1, parseColor)
  }

  function DocumentColors(text: string, parseColor: string -> Option<Rgba>): seq<ColorInfo> {
    DocumentColorsFrom(text, 0, parseColor)
  }

  /** What a reported colour is: a whole quoted string that passed the quick
      rejection and that the parser accepted, at the offsets of that string. */
  predicate IsReported(text: string, c: ColorInfo, parseColor: string -> Option<Rgba>) {
    && 0 < c.start <= c.end < |text|
    && text[c.start - 1] == '"' && text[c.end] == '"'
    && '"' !in text[c.start..c.end]
    && !SkipCandidate(text[c.start..c.end])
    && parseColor(text[c.start..c.end]) == Some(c.color)
  }

  /** The colour of one match, if any, is reported as such. */
  lemma FoundSound(text: string, from: nat, m: Match, parseColor: string -> Option<Rgba>)
    requires Exec(text, from) == Some(m)
    ensures forall c :: c in Found(text, m, parseColor) ==> IsReported(text, c, parseColor)
  {
    ExecQuoteFree(text, from);
    var s := text[m.open + 1..m.close];
    assert '"' !in s by {
      forall k | 0 <= k < |s| ensures s[k] != '"' {
        assert s[k] == text[m.open + 1 + k];
      }
    }
  }

  /** Every colour the scan reports is one of that kind. */
  lemma {:induction false} DocumentColorsSound(text: string, from: nat, parseColor: string -> Option<Rgba>)
    ensures forall c :: c in DocumentColorsFrom(text, from, parseColor) ==> IsReported(text, c, parseColor)
    decreases |text| - from
  {
    match Exec(text, from)
    case None =>
    case Some(m) =>
      DocumentColorsSound(text, m.close + 1, parseColor);
      FoundSound(text, from, m, parseColor);
      assert DocumentColorsFrom(text, from, parseColor)
        == Found(text, m, parseColor) + DocumentColorsFrom(text, m.close + 1, parseColor);
  }

  /** A quoted string the quick rejection skips is never reported, whatever the
      parser says of it. */
  lemma SkippedNeverReported(text: string, parseColor: string -> Option<Rgba>, c: ColorInfo)
    requires c in DocumentColors(text, parseColor)
    ensures c.start <= c.end <= |text|
    ensures c.end - c.start <= 50
    ensures !Contains(text[c.start..c.end], "/") && !Contains(text[c.start..c.end], "\\")
  {
    DocumentColorsSound(text, 0, parseColor);
  }

  /** Before the scan nothing is gathered and every colour is still ahead. */
  lemma ScanStart(text: string, parseColor: string -> Option<Rgba>)
    ensures [] + DocumentColorsFrom(text, 0, parseColor) == DocumentColors(text, parseColor)
  {
  }

  /** One turn of the scan keeps its invariant: the colours gathered so far,
      followed by those of the next match and those after its closing quote,
      are still all the colours of the text. */
  lemma ScanStep(text: string, from: nat, m: Match, parseColor: string -> Option<Rgba>, colors: seq<ColorInfo>, total: seq<ColorInfo>)
    requires Exec(text, from) == Some(m)
    requires colors + DocumentColorsFrom(text, from, parseColor) == total
    ensures (colors + Found(text, m, parseColor)) + DocumentColorsFrom(text, m.close + 1, parseColor) == total
  {
    var f := Found(text, m, parseColor);
    var rest := DocumentColorsFrom(text, m.close + 1, parseColor);
    assert DocumentColorsFrom(text, from, parseColor) == f + rest;
    assert colors + (f + rest) == (colors + f) + rest;
  }

  /** The body of the loop for one match: the quick rejection, then the colour
      parser; the colour spans the string between the quotes. */
  method ColorOfMatch(text: string, m: Match, parseColor: string -> Option<Rgba>) returns (found: seq<ColorInfo>)
    requires m.open < m.close <= |text|
    ensures found == Found(text, m, parseColor)
  {
    found := [];
    var colorString := text[m.open + 1..m.close];
    if !SkipCandidate(colorString) {
      var color := parseColor(colorString);
      if color.Some? {
        found := [ColorInfo(color.value, m.open + 1, m.open + |colorString| + 1)];
      }
    }
  }

  /** The `while` loop of `provideDocumentColors`: it reports exactly the
      colours `DocumentColors` describes, in the order of the text. */
  method ProvideDocumentColors(text: string, parseColor: string -> Option<Rgba>) returns (colors: seq<ColorInfo>)
    ensures colors == DocumentColors(text, parseColor)
  {
    colors := [];
    var lastIndex: nat := 0;
    var m := Exec(text, lastIndex);
    ScanStart(text, parseColor);
    while m.Some?
      invariant m == Exec(text, lastIndex)
      invariant colors + DocumentColorsFrom(text, lastIndex, parseColor) == DocumentColors(text, parseColor)
      decreases |text| - lastIndex
    {
      ScanStep(text, lastIndex, m.value, parseColor, colors, DocumentColors(text, parseColor));
      var found := ColorOfMatch(text, m.value, parseColor);
      colors := colors + found;
      lastIndex := m.value.close + 1;
      m := Exec(text, lastIndex);
    }
  }

  // ---------------------------------------------------------------------------
  // The page state
  // ---------------------------------------------------------------------------

  class JsonEditorPage {
    var jsonEditorValue: string
    var originalJsonValue: string
    var validationState: ValidationState
    var isApplyingJson: bool
    var hasLoadedInitialTheme: bool
    var showNavigationWarning: bool
    /** The router blocker's state is `blocked`. */
    var navigationBlocked: bool
    const store: WorkingThemeStore
    const errorQueue: Errors.ErrorProvider

    constructor (store: WorkingThemeStore, errorQueue: Errors.ErrorProvider)
      ensures this.store == store && this.errorQueue == errorQueue
      ensures jsonEditorValue == "" && originalJsonValue == "" && validationState == NotValidated
      ensures !isApplyingJson && !hasLoadedInitialTheme && !showNavigationWarning && !navigationBlocked
    {
      this.store := store;
      this.errorQueue := errorQueue;
      jsonEditorValue := "";
      originalJsonValue := "";
      validationState := NotValidated;
      isApplyingJson := false;
      hasLoadedInitialTheme := false;
      showNavigationWarning := false;
      navigationBlocked := false;
    }

    /** `hasUnsavedChanges`: the text differs from the last one loaded or applied. */
    predicate HasUnsavedChanges()
      reads this
    {
      jsonEditorValue != originalJsonValue
    }

    /** The blocker's predicate for a move from `currentPath` to `nextPath`. */
    predicate BlocksNavigation(currentPath: string, nextPath: string)
      reads this
    {
      HasUnsavedChanges() && currentPath != nextPath
    }

    /** The load effect: `workingJson` and `currentJson` are the two themes as
        `JSON.stringify` prints them. */
    method LoadInitialTheme(isExampleTheme: bool, workingJson: string, currentJson: Option<string>)
      modifies this`jsonEditorValue, this`originalJsonValue, this`hasLoadedInitialTheme
      ensures hasLoadedInitialTheme
      ensures old(hasLoadedInitialTheme) ==>
        jsonEditorValue == old(jsonEditorValue) && originalJsonValue == old(originalJsonValue)
      ensures !old(hasLoadedInitialTheme) && !isExampleTheme && workingJson != "" ==>
        jsonEditorValue == workingJson && originalJsonValue == workingJson
      ensures !old(hasLoadedInitialTheme) && !(!isExampleTheme && workingJson != "") && currentJson.Some? ==>
        jsonEditorValue == currentJson.value && originalJsonValue == currentJson.value
      ensures !old(hasLoadedInitialTheme) && !(!isExampleTheme && workingJson != "") && currentJson.None? ==>
        jsonEditorValue == old(jsonEditorValue) && originalJsonValue == old(originalJsonValue)
      ensures old(HasUnsavedChanges()) == false ==> !HasUnsavedChanges()
    {
      if !hasLoadedInitialTheme {
        if !isExampleTheme && workingJson != "" {
          jsonEditorValue := workingJson;
          originalJsonValue := workingJson;
        } else if currentJson.Some? {
          jsonEditorValue := currentJson.value;
          originalJsonValue := currentJson.value;
        }
        hasLoadedInitialTheme := true;
      }
    }

    /** `handleJsonEditorChange`. */
    method HandleJsonEditorChange(value: string)
      modifies this`jsonEditorValue, this`validationState
      ensures jsonEditorValue == value && validationState == NotValidated
      ensures HasUnsavedChanges() <==> value != originalJsonValue
    {
      jsonEditorValue := value;
      validationState := NotValidated;
    }

    /** A user edit in the editor, with the handler wired as `HandlerAttached` says;
        Monaco hands over `undefined` as `''`. */
    method UserEdit(value: Option<string>, isExampleTheme: bool)
      modifies this`jsonEditorValue, this`validationState
      ensures isExampleTheme ==>
        jsonEditorValue == old(jsonEditorValue) && validationState == old(validationState)
      ensures !isExampleTheme ==>
        jsonEditorValue == (if value.Some? then value.value else "") && validationState == NotValidated
    {
      if EditReachesState(ReadOnly(isExampleTheme), HandlerAttached(isExampleTheme)) {
        HandleJsonEditorChange(if value.Some? then value.value else "");
      }
    }

    /** `handleApplyJsonTheme`. */
    method HandleApplyJsonTheme(validateTheme: string -> Result<Theme>, parseJson: string -> Option<Theme>)
      returns (r: Outcome)
      modifies this`isApplyingJson, this`originalJsonValue, this`validationState
      modifies store`workingTheme, errorQueue`errors
      ensures jsonEditorValue == old(jsonEditorValue)
      ensures IsBlank(jsonEditorValue) ==>
        && r == Fail(EmptyApplyMessage)
        && isApplyingJson == old(isApplyingJson)
        && errorQueue.errors == old(errorQueue.errors) + [Errors.CustomError(Errors.Invalid, EmptyApplyMessage)]
        && originalJsonValue == old(originalJsonValue) && validationState == old(validationState)
        && unchanged(store)
      ensures !IsBlank(jsonEditorValue) ==> !isApplyingJson && r == ApplyOutcome(jsonEditorValue, validateTheme, parseJson)
      ensures !IsBlank(jsonEditorValue) && r.Pass? ==>
        && store.workingTheme == AsWorkingCopy(parseJson(jsonEditorValue).value, "Imported Theme")
        && originalJsonValue == jsonEditorValue && !HasUnsavedChanges()
        && validationState == NotValidated
        && errorQueue.errors == old(errorQueue.errors)
      ensures !IsBlank(jsonEditorValue) && r.Fail? ==>
        && errorQueue.errors == old(errorQueue.errors) + [Errors.CustomError(Errors.Invalid, "Invalid JSON format: " + r.message)]
        && originalJsonValue == old(originalJsonValue) && validationState == old(validationState)
        && unchanged(store)
    {
      if IsBlank(jsonEditorValue) {
        errorQueue.AddError(Errors.CustomError(Errors.Invalid, EmptyApplyMessage));
        return Fail(EmptyApplyMessage);
      }
      isApplyingJson := true;
      r := ImportJson(validateTheme, parseJson);
      FinishApply(r);
    }

    /** The awaited part of the `try` block: `validateThemeJson`, then
        `setWorkingThemeFromJson` when the text is a valid theme. */
    method ImportJson(validateTheme: string -> Result<Theme>, parseJson: string -> Option<Theme>)
      returns (r: Outcome)
      modifies store`workingTheme
      ensures r == ApplyOutcome(jsonEditorValue, validateTheme, parseJson)
      ensures r.Pass? ==> store.workingTheme == AsWorkingCopy(parseJson(jsonEditorValue).value, "Imported Theme")
      ensures r.Fail? ==> unchanged(store)
    {
      r := Themes.ValidateThemeJson(jsonEditorValue, validateTheme);
      if r.Pass? {
        r := store.SetWorkingThemeFromJson(jsonEditorValue, parseJson);
      }
    }

    /** The end of the `try`/`catch`/`finally`: on success the text counts as
        saved, on failure the error is queued; the flag goes down either way. */
    method FinishApply(r: Outcome)
      modifies this`isApplyingJson, this`originalJsonValue, this`validationState, errorQueue`errors
      ensures !isApplyingJson
      ensures r.Pass? ==>
        && originalJsonValue == jsonEditorValue && validationState == NotValidated
        && errorQueue.errors == old(errorQueue.errors)
      ensures r.Fail? ==>
        && errorQueue.errors == old(errorQueue.errors) + [Errors.CustomError(Errors.Invalid, "Invalid JSON format: " + r.message)]
        && originalJsonValue == old(originalJsonValue) && validationState == old(validationState)
    {
      if r.Pass? {
        originalJsonValue := jsonEditorValue;
        validationState := NotValidated;
      } else {
        errorQueue.AddError(Errors.CustomError(Errors.Invalid, "Invalid JSON format: " + r.message));
      }
      isApplyingJson := false;
    }

    /** `handleValidateJson`; the thrown error prints as `Error: <message>`. */
    method HandleValidateJson(validateTheme: string -> Result<Theme>)
      modifies this`validationState, errorQueue`errors
      ensures IsBlank(jsonEditorValue) ==>
        validationState == Invalid
        && errorQueue.errors == old(errorQueue.errors) + [Errors.CustomError(Errors.Invalid, EmptyValidateMessage)]
      ensures !IsBlank(jsonEditorValue) && Themes.ValidateThemeJson(jsonEditorValue, validateTheme).Pass? ==>
        validationState == Valid && errorQueue.errors == old(errorQueue.errors)
      ensures !IsBlank(jsonEditorValue) && Themes.ValidateThemeJson(jsonEditorValue, validateTheme).Fail? ==>
        validationState == Invalid
        && errorQueue.errors == old(errorQueue.errors) + [Errors.CustomError(Errors.Invalid,
             "Invalid JSON format. Please check your syntax. Error: "
             + Themes.ValidateThemeJson(jsonEditorValue, validateTheme).message)]
    {
      if IsBlank(jsonEditorValue) {
        validationState := Invalid;
        errorQueue.AddError(Errors.CustomError(Errors.Invalid, EmptyValidateMessage));
        return;
      }
      var checked := Themes.ValidateThemeJson(jsonEditorValue, validateTheme);
      if checked.Pass? {
        validationState := Valid;
      } else {
        validationState := Invalid;
        errorQueue.AddError(Errors.CustomError(Errors.Invalid, "Invalid JSON format. Please check your syntax. Error: " + checked.message));
      }
    }

    /** The router asks to leave `currentPath` for `nextPath`; the move goes ahead
        unless the blocker holds it, which opens the warning. */
    method RequestNavigation(currentPath: string, nextPath: string) returns (proceeds: bool)
      modifies this`navigationBlocked, this`showNavigationWarning
      ensures proceeds <==> !BlocksNavigation(currentPath, nextPath)
      ensures !proceeds ==> navigationBlocked && showNavigationWarning
      ensures proceeds ==> navigationBlocked == old(navigationBlocked) && showNavigationWarning == old(showNavigationWarning)
    {
      if BlocksNavigation(currentPath, nextPath) {
        navigationBlocked := true;
        showNavigationWarning := true;
        return false;
      }
      return true;
    }

    /** "Discard Changes": a held move proceeds. */
    method ConfirmNavigation() returns (proceeds: bool)
      modifies this`navigationBlocked, this`showNavigationWarning
      ensures proceeds == old(navigationBlocked)
      ensures !navigationBlocked && !showNavigationWarning
    {
      proceeds := navigationBlocked;
      navigationBlocked := false;
      showNavigationWarning := false;
    }

    /** Cancel: a held move is dropped. */
    method CancelNavigation()
      modifies this`navigationBlocked, this`showNavigationWarning
      ensures !navigationBlocked && !showNavigationWarning
    {
      navigationBlocked := false;
      showNavigationWarning := false;
    }
  }
}
