/** src/lib/themes.ts: tag lookup, the button-style whitelist, theme discovery
    and theme image resolution. */
module Themes {

  import opened Wrappers
  import opened Text
  import opened ThemeModel
  import opened ImageStorage

  /** `hasTag`: a theme without a tag list has no tag. */
  predicate HasTag(theme: Theme, tag: string) {
    theme.tags.Some? && tag in theme.tags.value
  }

  /** A theme has a tag exactly when it has a tag list naming it at some position;
      clearing the list removes every tag. */
  lemma HasTagMeaning(theme: Theme, tag: string)
    ensures HasTag(theme, tag) <==>
      theme.tags.Some? && exists i :: 0 <= i < |theme.tags.value| && theme.tags.value[i] == tag
    ensures !HasTag(theme.(tags := None), tag)
  {
    if HasTag(theme, tag) {
      var i :| 0 <= i < |theme.tags.value| && theme.tags.value[i] == tag;
    }
  }

  const ButtonStyles: set<string> := {"gradient", "shimmer", "pixel-art", "3d-effects", "rounded-buttons"}

  /** `validateThemeJson`; `validateTheme` is the theme library's own check, `Err`
      when it throws. */
  function ValidateThemeJson(json: string, validateTheme: string -> Result<Theme>): (r: Outcome)
    ensures validateTheme(json).Err? ==> r == Fail(validateTheme(json).message)
    ensures validateTheme(json).Ok? ==>
      (r.Fail? <==> validateTheme(json).value.buttonStyle.Some?
                    && validateTheme(json).value.buttonStyle.value !in ButtonStyles)
    ensures r.Fail? && validateTheme(json).Ok? ==>
      r.message == "Invalid button style: " + validateTheme(json).value.buttonStyle.value
  {
    match validateTheme(json)
    case Err(m) => Fail(m)
    case Ok(theme) =>
      if theme.buttonStyle.Some? && theme.buttonStyle.value !in ButtonStyles
      then Fail("Invalid button style: " + theme.buttonStyle.value)
      else Pass
  }

  /** A theme the library accepts and that names one of the five styles, or none, passes. */
  lemma WhitelistedStylesPass(json: string, validateTheme: string -> Result<Theme>, style: string)
    requires validateTheme(json).Ok?
    requires validateTheme(json).value.buttonStyle in {None, Some("gradient"), Some("shimmer"),
      Some("pixel-art"), Some("3d-effects"), Some("rounded-buttons")}
    ensures ValidateThemeJson(json, validateTheme) == Pass
  {
  }

  // ---------------------------------------------------------------------------
  // discoverThemes
  // ---------------------------------------------------------------------------

  /** The characters of `q` after its last `/` (all of `q` when it has none). */
  function AfterLastSlash(q: string): (r: string)
    ensures '/' !in r
    ensures |r| <= |q| && r == q[|q| - |r|..]
    ensures |r| < |q| ==> q[|q| - |r| - 1] == '/'
  {
    if q == [] || q[|q| - 1] == '/' then []
    else AfterLastSlash(q[..|q| - 1]) + [q[|q| - 1]]
  }

  const ThemeFileSuffix: string := "/theme.json"
  const ThemesDir: string := "../themes/"

  /** The group the pattern `\.\.\/themes\/([^/]+)\/theme\.json$` captures in `path`,
      `None` when it does not match. The pattern is anchored only at the end, so
      the directory name is the run of non-`/` characters before `/theme.json`,
      and it must directly follow `../themes/`. */
  function ThemeDirName(path: string): (r: Option<string>)
    ensures r.Some? ==> r.value != [] && '/' !in r.value
    ensures r.Some? ==> EndsWith(path, ThemesDir + r.value + ThemeFileSuffix)
  {
    if !EndsWith(path, ThemeFileSuffix) then None
    else
      var q := path[..|path| - |ThemeFileSuffix|];
      var name := AfterLastSlash(q);
      if name != [] && EndsWith(q[..|q| - |name|], ThemesDir) then
        assert path[|path| - |ThemesDir + name + ThemeFileSuffix|..] ==
               q[..|q| - |name|][|q| - |name| - |ThemesDir|..] + name + ThemeFileSuffix;
        Some(name)
      else None
  }

  lemma {:induction false} AfterLastSlashOfName(dir: string, name: string)
    requires dir != [] && dir[|dir| - 1] == '/' && '/' !in name
    ensures AfterLastSlash(dir + name) == name
    decreases |name|
  {
    if name == [] {
      assert dir + name == dir;
    } else {
      var q := dir + name;
      assert q[..|q| - 1] == dir + name[..|name| - 1];
      AfterLastSlashOfName(dir, name[..|name| - 1]);
      assert name == name[..|name| - 1] + [name[|name| - 1]];
    }
  }

  /** Every path `../themes/<name>/theme.json` the glob yields matches, capturing `<name>`. */
  lemma GlobPathsMatch(name: string)
    requires name != [] && '/' !in name
    ensures ThemeDirName(ThemesDir + name + ThemeFileSuffix) == Some(name)
  {
    var path := ThemesDir + name + ThemeFileSuffix;
    var q := ThemesDir + name;
    assert path[..|path| - |ThemeFileSuffix|] == q;
    assert path[|path| - |ThemeFileSuffix|..] == ThemeFileSuffix;
    AfterLastSlashOfName(ThemesDir, name);
    assert q[..|q| - |name|] == ThemesDir;
  }

  /** The bundled themes, in module order, whose path matches the pattern. */
  function BundledThemes(modules: seq<(string, Theme)>): (r: seq<Theme>)
    ensures |r| <= |modules|
    ensures forall t :: t in r ==>
      exists i :: 0 <= i < |modules| && modules[i].1 == t && ThemeDirName(modules[i].0).Some?
    ensures forall i :: 0 <= i < |modules| && ThemeDirName(modules[i].0).Some? ==> modules[i].1 in r
  {
    if modules == [] then []
    else
      var rest := BundledThemes(modules[1..]);
      assert forall i :: 1 <= i < |modules| ==> modules[i] == modules[1..][i - 1];
      if ThemeDirName(modules[0].0).Some? then [modules[0].1] + rest else rest
  }

  /** `BundledThemes` is the order-keeping filter of the modules by their path: one
      module gives its theme exactly when its path matches, and a list split in
      two gives the themes of the first part followed by those of the second. */
  lemma {:induction false} BundledThemesIsFilter(a: seq<(string, Theme)>, b: seq<(string, Theme)>, m: (string, Theme))
    ensures BundledThemes([m]) == if ThemeDirName(m.0).Some? then [m.1] else []
    ensures BundledThemes(a + b) == BundledThemes(a) + BundledThemes(b)
    decreases |a|
  {
    assert [m][1..] == [];
    if a == [] {
      assert a + b == b;
    } else {
      assert (a + b)[0] == a[0] && (a + b)[1..] == a[1..] + b;
      BundledThemesIsFilter(a[1..], b, m);
    }
  }

  /** With only paths the glob yields, every bundled theme is kept, in order. */
  lemma {:induction false} BundledThemesKeepsGlobbed(modules: seq<(string, Theme)>)
    requires forall i :: 0 <= i < |modules| ==> ThemeDirName(modules[i].0).Some?
    ensures BundledThemes(modules) == seq(|modules|, i requires 0 <= i < |modules| => modules[i].1)
  {
    if modules != [] {
      BundledThemesKeepsGlobbed(modules[1..]);
    }
  }

  /** `discoverThemes`. `modules` are the glob's entries in order; `saved` is the
      `working-theme-storage` item; `parseState` stands for `JSON.parse` followed by
      reading `state.WorkingTheme` (`None` when it throws). */
  method DiscoverThemes(modules: seq<(string, Theme)>, saved: Option<string>,
                        parseState: string -> Option<Option<Theme>>) returns (themes: seq<Theme>)
    ensures var parsed := parseState(if saved.Some? && saved.value != "" then saved.value else "{}");
      && (parsed.None? ==> themes == [])
      && (parsed == Some(None) ==> themes == BundledThemes(modules))
      && (parsed.Some? && parsed.value.Some? ==>
            |themes| >= 1 && themes[|themes| - 1] == parsed.value.value
            && themes[..|themes| - 1] == BundledThemes(modules))
  {
    themes := BundledThemes(modules);
    var text := if saved.Some? && saved.value != "" then saved.value else "{}";
    var parsed := parseState(text);
    if parsed.None? {
      return [];
    }
    if parsed.value.Some? {
      themes := themes + [parsed.value.value];
    }
  }

  // ---------------------------------------------------------------------------
  // resolveThemeImage
  // ---------------------------------------------------------------------------

  const IndexedDbSentinel: string := "{INDEXED_DB}"

  /** What `resolveThemeImage` resolves to: a URL string or the stored blob itself. */
  datatype ImageRef = UrlRef(url: string) | BlobRef(blob: Blob)

  function ThemeImagePath(themeName: string, imagePath: string): string {
    ThemesDir + themeName + "/" + imagePath
  }

  /** `bundledImages` maps each path the image glob yields to its module URL;
      `stored` is what `getImage("background-image")` answered. */
  function ResolveThemeImage(themeName: string, imagePath: string, bundledImages: map<string, string>,
                             stored: Result<Option<StoredImage>>): (r: ImageRef)
    ensures imagePath == IndexedDbSentinel ==>
      r == if stored.Ok? && stored.value.Some? then BlobRef(stored.value.value.data) else UrlRef("")
    ensures imagePath != IndexedDbSentinel && ThemeImagePath(themeName, imagePath) in bundledImages ==>
      r == UrlRef(bundledImages[ThemeImagePath(themeName, imagePath)])
    ensures imagePath != IndexedDbSentinel && ThemeImagePath(themeName, imagePath) !in bundledImages ==>
      r == UrlRef(ThemeImagePath(themeName, imagePath))
  {
    if imagePath == IndexedDbSentinel then
      match stored
      case Ok(Some(image)) => BlobRef(image.data)
      case _ => UrlRef("")
    else
      var path := ThemeImagePath(themeName, imagePath);
      if path in bundledImages then UrlRef(bundledImages[path]) else UrlRef(path)
  }
}
