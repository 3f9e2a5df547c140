/** src/hooks/useWorkingThemeState.ts: the store that holds the one theme being
    designed. Every setter replaces the `WorkingTheme` record; the background
    setters also go through the image store. */
module WorkingThemeState {

  import opened Wrappers
  import opened Text
  import opened ThemeModel
  import Utils
  import opened ImageStorage

  // ---------------------------------------------------------------------------
  // The new theme each operation produces, as functions of the old one
  // ---------------------------------------------------------------------------

  /** Two themes that agree on everything but `name` and `displayName`. */
  predicate SameBesidesNames(a: Theme, b: Theme) {
    && a.schemaVersion == b.schemaVersion && a.inherits == b.inherits && a.mostLike == b.mostLike
    && a.tags == b.tags && a.buttonStyle == b.buttonStyle && a.backgroundImage == b.backgroundImage
    && a.colors == b.colors && a.sidebar == b.sidebar && a.tables == b.tables && a.other == b.other
  }

  /** The copy `setWorkingThemeFromCurrent` / `setWorkingThemeFromJson` store:
      renamed to the design name, with `fallbackName` for a missing display name. */
  function AsWorkingCopy(source: Theme, fallbackName: string): (r: Theme)
    requires fallbackName != ""
    ensures r.name == DesignThemeName
    ensures r.displayName != ""
    ensures source.displayName != "" ==> r.displayName == source.displayName
    ensures source.displayName == "" ==> r.displayName == fallbackName
    ensures SameBesidesNames(r, source)
  {
    source.(name := DesignThemeName,
            displayName := if source.displayName != "" then source.displayName else fallbackName)
  }

  /** `setBackgroundImage(null)`: no image and no background colour. */
  function WithoutBackground(t: Theme): (r: Theme)
    ensures r.backgroundImage.None? && r.colors.background == Unset
    ensures r.colors.(background := t.colors.background) == t.colors
    ensures r.(backgroundImage := t.backgroundImage, colors := t.colors) == t
  {
    t.(backgroundImage := None, colors := t.colors.(background := Unset))
  }

  /** The theme after an image was stored and `blobUrl` obtained for it. */
  function WithStoredBackground(t: Theme, blobUrl: Option<string>): (r: Theme)
    ensures blobUrl.Some? ==> r.backgroundImage == blobUrl && r.colors.background == Str("transparent")
    ensures blobUrl.None? ==> r == WithoutBackground(t)
    ensures r.(backgroundImage := t.backgroundImage, colors := t.colors) == t
    ensures r.colors.(background := t.colors.background) == t.colors
  {
    t.(backgroundImage := blobUrl,
       colors := t.colors.(background := if blobUrl.Some? then Str("transparent") else Unset))
  }

  /** `setBackgroundImage` with a plain (not `data:`) URL string. */
  function WithPlainBackground(t: Theme, url: string): (r: Theme)
    ensures r.backgroundImage == Some(url) && r.colors.background == Str("transparent")
    ensures r.(backgroundImage := t.backgroundImage, colors := t.colors) == t
    ensures r.colors.(background := t.colors.background) == t.colors
  {
    WithStoredBackground(t, Some(url))
  }

  const CardFilter: string := "blur(16px) saturate(180%) brightness(1.1)"
  const PopoverFilter: string := "blur(20px) saturate(180%) brightness(1.1)"
  const InputFilter: string := "blur(8px) saturate(150%) brightness(1.05)"
  const SidebarFilter: string := "blur(20px) saturate(180%) brightness(1.1)"
  const TableHeaderFilter: string := "blur(8px) saturate(150%) brightness(1.05)"
  const TableRowFilter: string := "blur(4px) saturate(120%) brightness(1.02)"
  const TableFooterFilter: string := "blur(8px) saturate(150%) brightness(1.05)"

  function FilterOrNull(enabled: bool, filter: string): Prop {
    if enabled then Str(filter) else Null
  }

  /** The seven backdrop-filter properties of a theme. */
  function BackdropFilterProps(t: Theme): seq<Prop> {
    [t.colors.cardBackdropFilter, t.colors.popoverBackdropFilter, t.colors.inputBackdropFilter,
     t.sidebar.backdropFilter,
     t.tables.header.backdropFilter, t.tables.row.backdropFilter, t.tables.footer.backdropFilter]
  }

  /** `setBackdropFilters(enabled)`: every filter a non-empty string, or every one `null`. */
  function WithBackdropFilters(t: Theme, enabled: bool): (r: Theme)
    ensures |BackdropFilterProps(r)| == 7
    ensures enabled ==> forall i :: 0 <= i < 7 ==> BackdropFilterProps(r)[i].Truthy()
    ensures !enabled ==> forall i :: 0 <= i < 7 ==> BackdropFilterProps(r)[i] == Null
    ensures r.(colors := t.colors, sidebar := t.sidebar, tables := t.tables) == t
    ensures r.colors.palette == t.colors.palette && r.colors.background == t.colors.background
    ensures r.sidebar.other == t.sidebar.other && r.tables.other == t.tables.other
    ensures r.tables.header.other == t.tables.header.other && r.tables.row.other == t.tables.row.other
      && r.tables.footer.other == t.tables.footer.other
  {
    t.(colors := t.colors.(cardBackdropFilter := FilterOrNull(enabled, CardFilter),
                           popoverBackdropFilter := FilterOrNull(enabled, PopoverFilter),
                           inputBackdropFilter := FilterOrNull(enabled, InputFilter)),
       sidebar := t.sidebar.(backdropFilter := FilterOrNull(enabled, SidebarFilter)),
       tables := t.tables.(header := t.tables.header.(backdropFilter := FilterOrNull(enabled, TableHeaderFilter)),
                           row := t.tables.row.(backdropFilter := FilterOrNull(enabled, TableRowFilter)),
                           footer := t.tables.footer.(backdropFilter := FilterOrNull(enabled, TableFooterFilter))))
  }

  /** The store's own `getBackdropFilters`: one of the three colour filters is truthy. */
  predicate HasBackdropFilters(t: Theme) {
    t.colors.cardBackdropFilter.Truthy() || t.colors.popoverBackdropFilter.Truthy()
      || t.colors.inputBackdropFilter.Truthy()
  }

  /** The hook's `getBackdropFilters`: one of all seven filters is truthy. */
  predicate HasAnyBackdropFilter(t: Theme) {
    exists i :: 0 <= i < |BackdropFilterProps(t)| && BackdropFilterProps(t)[i].Truthy()
  }

  /** Reading either flag back after setting it gives what was set. */
  lemma BackdropFiltersRoundTrip(t: Theme, enabled: bool)
    ensures HasBackdropFilters(WithBackdropFilters(t, enabled)) == enabled
    ensures HasAnyBackdropFilter(WithBackdropFilters(t, enabled)) == enabled
  {
    var r := WithBackdropFilters(t, enabled);
    assert r.colors.cardBackdropFilter == BackdropFilterProps(r)[0];
    if enabled {
      assert BackdropFilterProps(r)[0].Truthy();
    }
  }

  /** Both readings agree whenever the three colour filters and the four panel
      filters are all set or all cleared together, as `setBackdropFilters` leaves them. */
  lemma {:induction false} ColourFiltersDecide(t: Theme)
    requires forall i :: 0 <= i < 7 ==> BackdropFilterProps(t)[i].Truthy() == BackdropFilterProps(t)[0].Truthy()
    ensures HasBackdropFilters(t) == HasAnyBackdropFilter(t)
  {
    var props := BackdropFilterProps(t);
    assert props[0] == t.colors.cardBackdropFilter;
    assert props[1] == t.colors.popoverBackdropFilter && props[2] == t.colors.inputBackdropFilter;
    if HasAnyBackdropFilter(t) {
      var i :| 0 <= i < |props| && props[i].Truthy();
      assert props[0].Truthy();
    }
  }

  /** The hook's `getBackdropFilters` on a stored theme: the seven-filter test of
      the theme after `initializeTheme`, which only the design theme goes through. */
  predicate HookReadsBackdropFilters(t: Theme, initializeTheme: Theme -> Theme) {
    HasAnyBackdropFilter(if t.name == DesignThemeName then initializeTheme(t) else t)
  }

  /** The hook reads back what `setBackdropFilters` set, provided the initialiser
      keeps the seven filters of the design theme it is given. */
  lemma HookBackdropFiltersRoundTrip(t: Theme, enabled: bool, initializeTheme: Theme -> Theme)
    requires WithBackdropFilters(t, enabled).name == DesignThemeName ==>
      BackdropFilterProps(initializeTheme(WithBackdropFilters(t, enabled))) == BackdropFilterProps(WithBackdropFilters(t, enabled))
    ensures HookReadsBackdropFilters(WithBackdropFilters(t, enabled), initializeTheme) == enabled
  {
    BackdropFiltersRoundTrip(t, enabled);
  }

  predicate IsBlobUrl(url: Option<string>) {
    url.Some? && StartsWith(url.value, "blob:")
  }

  /** `refreshBlobUrls`, given what `getImageUrl` answered (`Err` when it threw). */
  function RefreshedTheme(t: Theme, answer: Result<Option<string>>): (r: Theme)
    ensures !IsBlobUrl(t.backgroundImage) ==> r == t
    ensures answer.Err? ==> r == t
    ensures IsBlobUrl(t.backgroundImage) && answer.Ok? && answer.value in {None, Some("")} ==>
      r == t.(backgroundImage := None)
    ensures IsBlobUrl(t.backgroundImage) && answer.Ok? && answer.value.Some? && answer.value.value != "" ==>
      r == t.(backgroundImage := answer.value)
    ensures r.(backgroundImage := t.backgroundImage) == t
  {
    if !IsBlobUrl(t.backgroundImage) then t
    else match answer
      case Err(_) => t
      case Ok(None) => t.(backgroundImage := None)
      case Ok(Some(url)) => if url != "" && url != t.backgroundImage.value then t.(backgroundImage := Some(url))
                            else if url == "" then t.(backgroundImage := None)
                            else t
  }

  /** `refreshBackgroundImageUrl`, given what `getImage` answered. */
  function RevalidatedTheme(t: Theme, stored: Result<Option<StoredImage>>): (r: Theme)
    ensures IsBlobUrl(t.backgroundImage) && stored == Ok(None) ==> r == t.(backgroundImage := None)
    ensures !(IsBlobUrl(t.backgroundImage) && stored == Ok(None)) ==> r == t
  {
    if IsBlobUrl(t.backgroundImage) && stored == Ok(None) then t.(backgroundImage := None) else t
  }

  /** What `setBackgroundImage` is given. */
  datatype BackgroundSource = NoImage | ImageFile(file: File) | ImageUrl(url: string)

  /** The first branch of `setBackgroundImage`: the image goes to IndexedDB. */
  predicate GoesToStorage(source: BackgroundSource) {
    source.ImageFile? || (source.ImageUrl? && StartsWith(source.url, "data:"))
  }

  function StorageData(source: BackgroundSource): ImageData
    requires GoesToStorage(source)
  {
    match source
    case ImageFile(file) => BinaryData(file.blob)
    case ImageUrl(url) => TextData(url)
  }

  // ---------------------------------------------------------------------------
  // The store
  // ---------------------------------------------------------------------------

  class WorkingThemeStore {
    var workingTheme: Theme
    /** The `imageStorage` singleton. */
    const images: ImageStorageService

    ghost predicate Valid()
      reads this, images
    {
      images.Valid()
    }

    constructor (images: ImageStorageService)
      requires images.Valid()
      ensures Valid() && this.images == images && workingTheme == DefaultTheme
    {
      this.images := images;
      workingTheme := DefaultTheme;
    }

    method SetTheme(theme: Theme)
      modifies this`workingTheme
      ensures workingTheme == theme
    {
      workingTheme := theme;
    }

    method SetThemeDisplayName(displayName: string)
      modifies this`workingTheme
      ensures workingTheme == old(workingTheme).(displayName := displayName)
    {
      workingTheme := workingTheme.(displayName := displayName);
    }

    method SetInherits(inherits: Option<Inherits>)
      modifies this`workingTheme
      ensures workingTheme == old(workingTheme).(inherits := inherits)
    {
      workingTheme := workingTheme.(inherits := inherits);
    }

    method SetMostLike(mostLike: Option<MostLike>)
      modifies this`workingTheme
      ensures workingTheme == old(workingTheme).(mostLike := mostLike)
    {
      workingTheme := workingTheme.(mostLike := mostLike);
    }

    /** Back to the default theme, whether or not the stored image could be deleted. */
    method ClearWorkingTheme()
      requires Valid()
      modifies this`workingTheme, images`dbOpen, images`table, images`activeBlobUrls
      ensures Valid()
      ensures workingTheme == DefaultTheme
      ensures images.activeBlobUrls ==
        if IsBlobUrl(old(workingTheme.backgroundImage))
        then old(images.activeBlobUrls) - {old(workingTheme.backgroundImage).value}
        else old(images.activeBlobUrls)
      ensures images.table == if images.canOpenDatabase then old(images.table) - {BackgroundImageKey}
                              else old(images.table)
    {
      var current := workingTheme.backgroundImage;
      if IsBlobUrl(current) {
        images.RevokeImageUrl(current.value);
      }
      var _ := images.DeleteImage(BackgroundImageKey);
      workingTheme := DefaultTheme;
    }

    function DeriveThemeName(): (name: string)
      reads this
      ensures Utils.IsValidFileName(name)
      ensures name == Utils.MakeValidFileName(workingTheme.displayName)
    {
      Utils.MakeValidFileNameIsValid(workingTheme.displayName);
      Utils.MakeValidFileName(workingTheme.displayName)
    }

    method SetWorkingThemeFromCurrent(currentTheme: Theme)
      modifies this`workingTheme
      ensures workingTheme == AsWorkingCopy(currentTheme, "New Theme")
    {
      workingTheme := AsWorkingCopy(currentTheme, "New Theme");
    }

    /** `parseJson` stands for `JSON.parse`; `None` means it threw. */
    method SetWorkingThemeFromJson(json: string, parseJson: string -> Option<Theme>) returns (r: Outcome)
      modifies this`workingTheme
      ensures parseJson(json).None? ==> r == Fail("Invalid theme JSON format") && workingTheme == old(workingTheme)
      ensures parseJson(json).Some? ==> r == Pass && workingTheme == AsWorkingCopy(parseJson(json).value, "Imported Theme")
    {
      var parsed := parseJson(json);
      if parsed.None? {
        return Fail("Invalid theme JSON format");
      }
      workingTheme := AsWorkingCopy(parsed.value, "Imported Theme");
      return Pass;
    }

    /** `fetched` and `atob` are handed on to `storeImage`; `objectUrl` is the URL
        `URL.createObjectURL` would create. */
    method SetBackgroundImage(source: BackgroundSource, fetched: Result<Blob>,
                              atob: string -> Option<string>, objectUrl: string)
      returns (r: Outcome)
      requires Valid() && StartsWith(objectUrl, "blob:")
      modifies this`workingTheme, images`dbOpen, images`table, images`activeBlobUrls
      ensures Valid()
      ensures source == NoImage ==> r == Pass && workingTheme == WithoutBackground(old(workingTheme))
      ensures source == NoImage && images.canOpenDatabase ==> BackgroundImageKey !in images.table
      ensures source.ImageUrl? && !GoesToStorage(source) ==>
        r == Pass && workingTheme == WithPlainBackground(old(workingTheme), source.url)
      ensures GoesToStorage(source) && r.Pass? ==>
        && ToBlob(StorageData(source), fetched, atob).Ok?
        && workingTheme == WithStoredBackground(old(workingTheme), Some(objectUrl))
        && images.table == old(images.table)[BackgroundImageKey :=
             StoredImage(BackgroundImageKey, ToBlob(StorageData(source), fetched, atob).value)]
      ensures GoesToStorage(source) ==>
        (r.Pass? <==> images.canOpenDatabase && ToBlob(StorageData(source), fetched, atob).Ok?)
      ensures r.Fail? ==> workingTheme == old(workingTheme) && images.table == old(images.table)
      ensures r.Fail? ==> images.activeBlobUrls == old(images.activeBlobUrls)
      ensures GoesToStorage(source) && r.Pass? ==>
        images.activeBlobUrls == (old(images.activeBlobUrls) + {objectUrl}) -
          (if IsBlobUrl(old(workingTheme.backgroundImage)) && old(workingTheme.backgroundImage).value != objectUrl
           then {old(workingTheme.backgroundImage).value} else {})
      ensures source == NoImage ==>
        images.table == if images.canOpenDatabase then old(images.table) - {BackgroundImageKey}
                        else old(images.table)
      ensures source == NoImage ==>
        images.activeBlobUrls ==
          if IsBlobUrl(old(workingTheme.backgroundImage))
          then old(images.activeBlobUrls) - {old(workingTheme.backgroundImage).value}
          else old(images.activeBlobUrls)
      ensures source.ImageUrl? && !GoesToStorage(source) ==>
        images.table == old(images.table) && images.activeBlobUrls == old(images.activeBlobUrls)
    {
      var current := workingTheme.backgroundImage;
      if GoesToStorage(source) {
        var stored := images.StoreImage(BackgroundImageKey, StorageData(source), fetched, atob);
        if stored.Fail? {
          return Fail("Failed to store background image: " + stored.message);
        }
        // The database is open once the image was stored, so this lookup succeeds.
        var blobUrl := images.GetImageUrl(BackgroundImageKey, objectUrl);
        assert blobUrl == Ok(Some(objectUrl));
        if IsBlobUrl(current) && current != blobUrl.value {
          images.RevokeImageUrl(current.value);
        }
        workingTheme := WithStoredBackground(workingTheme, blobUrl.value);
      } else if source == NoImage {
        if IsBlobUrl(current) {
          images.RevokeImageUrl(current.value);
        }
        var _ := images.DeleteImage(BackgroundImageKey);
        workingTheme := WithoutBackground(workingTheme);
      } else {
        workingTheme := WithPlainBackground(workingTheme, source.url);
      }
      return Pass;
    }

    /** `getBackgroundImage`: the image URL, `None` when unset or empty. */
    function GetBackgroundImage(): (r: Option<string>)
      reads this
      ensures r.Some? ==> r == workingTheme.backgroundImage && r.value != ""
      ensures r.None? ==> workingTheme.backgroundImage in {None, Some("")}
    {
      if workingTheme.backgroundImage.Some? && workingTheme.backgroundImage.value != ""
      then workingTheme.backgroundImage else None
    }

    method SetBackdropFilters(enabled: bool)
      modifies this`workingTheme
      ensures workingTheme == WithBackdropFilters(old(workingTheme), enabled)
      ensures GetBackdropFilters() == enabled
    {
      workingTheme := WithBackdropFilters(workingTheme, enabled);
      BackdropFiltersRoundTrip(old(workingTheme), enabled);
    }

    function GetBackdropFilters(): bool
      reads this
    {
      HasBackdropFilters(workingTheme)
    }

    /** The hook's `getInitializedWorkingTheme`; `initializeTheme` stands for the
        theme context's initialiser. */
    function InitializedWorkingTheme(initializeTheme: Theme -> Theme): (r: Theme)
      reads this
      ensures workingTheme.name != DesignThemeName ==> r == workingTheme
      ensures workingTheme.name == DesignThemeName ==> r == initializeTheme(workingTheme)
    {
      if workingTheme.name == DesignThemeName then initializeTheme(workingTheme) else workingTheme
    }

    /** The hook's `getBackdropFilters`, reading all seven filters of the initialised theme. */
    function GetInitializedBackdropFilters(initializeTheme: Theme -> Theme): bool
      reads this
    {
      HookReadsBackdropFilters(workingTheme, initializeTheme)
    }

    method RefreshBlobUrls(objectUrl: string)
      requires Valid() && StartsWith(objectUrl, "blob:")
      modifies this`workingTheme, images`dbOpen, images`activeBlobUrls
      ensures Valid()
      ensures !IsBlobUrl(old(workingTheme.backgroundImage)) ==> workingTheme == old(workingTheme)
      ensures IsBlobUrl(old(workingTheme.backgroundImage)) ==>
        workingTheme == RefreshedTheme(old(workingTheme),
          if !images.canOpenDatabase then Err(OpenFailure)
          else if BackgroundImageKey in images.table then Ok(Some(objectUrl)) else Ok(None))
      ensures images.activeBlobUrls ==
        if IsBlobUrl(old(workingTheme.backgroundImage)) && images.canOpenDatabase
           && BackgroundImageKey in images.table
        then old(images.activeBlobUrls) + {objectUrl}
        else old(images.activeBlobUrls)
    {
      var current := workingTheme.backgroundImage;
      if IsBlobUrl(current) {
        var answer := images.GetImageUrl(BackgroundImageKey, objectUrl);
        workingTheme := RefreshedTheme(workingTheme, answer);
      }
    }

    method RefreshBackgroundImageUrl()
      requires Valid()
      modifies this`workingTheme, images`dbOpen
      ensures Valid()
      ensures workingTheme == RevalidatedTheme(old(workingTheme),
        if !images.canOpenDatabase then Err(OpenFailure)
        else if BackgroundImageKey in images.table then Ok(Some(images.table[BackgroundImageKey]))
        else Ok(None))
    {
      if IsBlobUrl(workingTheme.backgroundImage) {
        var stored := images.GetImage(BackgroundImageKey);
        workingTheme := RevalidatedTheme(workingTheme, stored);
      }
    }
  }
}
