# theme-a-roo core, modelled in Dafny

theme-a-roo is a desktop and web application for designing colour themes and
for preparing a finished theme as an NFT. The model covers the parts of it
whose behaviour can be stated. Those parts are:

- the theme file-name sanitiser and the colour and URL checks (`Utils`);
- the working-theme store (`WorkingThemeState.WorkingThemeStore`). It is a
  class holding one `Theme` record, and every setter replaces that record.
- the IndexedDB image store with its registry of live `blob:` URLs, and the
  manual `data:` URI decoder of RFC 2397 section 3 (`ImageStorage`);
- the CHIP-0007 NFT metadata builder (`UploadMetadata`);
- the JSON editor page (`JsonEditor`). It covers unsaved-change tracking,
  validation state, the navigation blocker, apply and validate, and the
  colour-literal scan over the editor text.
- the four-step NFT wizard (`PrepareNft`) and the collection-info form and
  hook (`CollectionInfoForm`, `CollectionInfoState`);
- pagination arithmetic (`Pagination`);
- the error dialog's first-in first-out queue (`ErrorContext`);
- the theme selector lists (`ThemeSelector`);
- theme validation, discovery and image resolution (`Themes`);
- the IPFS manager's guards and gateways (`IpfsManager`);
- the navigation return-value map (`NavigationState`);
- user-agent platform detection (`WebFallbacks`).

Each core file is one module. The shared modules are:

- `Wrappers`: `Option`, `Result`, and `Outcome`, which models a call that
  either returns or throws with a message.
- `Text`: JavaScript's `trim`, `toLowerCase`, `startsWith`, `endsWith` and
  `includes` on `seq<char>`.
- `ThemeModel`: the theme record of the theme library and `DEFAULT_THEME`.
- `UploadedUrls`: the uploaded-file records.

Code that changes state in place is modelled as classes:

- `WorkingThemeStore`, `ImageStorageService`, `JsonEditorPage`,
  `ErrorProvider`, `CollectionInfoStore`, `NftWizard` and `NavigationStore`.
- Their methods are proved against the functions that describe the new state.

Pure code is modelled as functions, with lemmas relating them. Foreign calls
are parameters of the operations that make them:

- `validateTheme`, `JSON.parse` and `JSON.stringify`;
- `atob`, `fetch` and `URL.createObjectURL`;
- the colour parser `parseColor`, `initializeTheme` and `crypto.randomUUID`;
- the IPFS provider services.

`resolveThemeImage` (src/lib/themes.ts:58-91) is typed as returning a string.
For the `{INDEXED_DB}` sentinel, however, it returns the stored record's
`data`, which is a `Blob`. The model follows the code: its result is either a
URL or the blob (`Themes.ImageRef`).

## Model

| member | source | states |
|---|---|---|
| Utils.ReplaceInvalid | src/lib/utils.ts:17 | every character outside `[a-z0-9-]` becomes `-`; the length and every allowed character are kept |
| Utils.CollapseKeepsEnds | src/lib/utils.ts:18 | collapsing runs of dashes keeps the first and last character, and a non-empty string stays non-empty |
| Utils.CollapseKeepsChars | src/lib/utils.ts:18 | collapsing dashes introduces no character outside `[a-z0-9-]` |
| Utils.CollapseNoDoubleDash | src/lib/utils.ts:18 | after `/-+/g` → `-` the string holds no `--` |
| Utils.CollapseIdentity | src/lib/utils.ts:18 | a string without `--` is left unchanged by the collapse |
| Utils.StripEdgeDashesValid | src/lib/utils.ts:19 | removing one leading and one trailing dash from a collapsed string leaves no dash at either end and no `--` |
| Utils.MakeValidFileNameIsValid | src/lib/utils.ts:13-24 | the result is non-empty, uses only `a-z`, `0-9`, `-`, never starts or ends with `-` and never holds `--` (an empty sanitised name becomes `my-custom-theme`) |
| Utils.TrimKeepsFileNameChars | src/lib/utils.ts:15 | `trim` leaves a string whose end characters are file-name characters unchanged |
| Utils.LowerKeepsFileNameChars | src/lib/utils.ts:16-17 | lower-casing and the replacement leave a string of file-name characters unchanged |
| Utils.MakeValidFileNameFixesValid | src/lib/utils.ts:13-24 | a name the sanitiser could return is returned unchanged |
| Utils.MakeValidFileNameIdempotent | src/lib/utils.ts:13-24 | sanitising twice equals sanitising once |
| Utils.MakeValidFileName | src/lib/utils.ts:13-24 | the sanitiser: trim, lower-case, replace, collapse, strip edge dashes, fall back to `my-custom-theme`; its meaning is stated by `MakeValidFileNameIsValid`, `MakeValidFileNameFixesValid` and `MakeValidFileNameIdempotent` |
| Utils.ChannelDistance | src/lib/utils.ts:110-114 | the largest of the three channel differences |
| Utils.AreColorsEqual | src/lib/utils.ts:106-115 | each of the three channel differences is at most one; `AreColorsEqualMeaning` relates it to `ChannelDistance` |
| Utils.AreColorsEqualMeaning | src/lib/utils.ts:106-115 | for real-valued channels, two colours are equal iff their channel distance is at most one; the relation is reflexive and symmetric |
| Utils.IsValidUrl | src/lib/utils.ts:39-55 | `undefined` exactly when the left-trimmed, lower-cased input lacks an `http://`/`https://` prefix; `true` exactly when it has one, the URL parses, and the host is neither `localhost` (any case) nor `127.0.0.1` |
| WorkingThemeState.AsWorkingCopy | src/hooks/useWorkingThemeState.ts:126-147 | the copy is named `theme-a-roo-custom-theme`, keeps a non-empty display name, otherwise takes the fallback, and keeps every other field |
| WorkingThemeState.WithoutBackground | src/hooks/useWorkingThemeState.ts:231-240 | no background image and no background colour; every other field and colour unchanged |
| WorkingThemeState.WithStoredBackground | src/hooks/useWorkingThemeState.ts:192-201 | with a blob URL: that image and a `transparent` background; without one: both cleared; nothing else changes |
| WorkingThemeState.WithPlainBackground | src/hooks/useWorkingThemeState.ts:243-252 | the given URL as image and a `transparent` background; nothing else changes |
| WorkingThemeState.WithBackdropFilters | src/hooks/useWorkingThemeState.ts:259-304 | enabling makes all seven backdrop filters non-empty strings, disabling makes all seven `null`; the palette, the background, the other properties of the sidebar, of the tables and of each table panel, and every other theme field are unchanged |
| WorkingThemeState.BackdropFiltersRoundTrip | src/hooks/useWorkingThemeState.ts:259-313 | after setting the filters to `b`, the store's three-filter test and the seven-filter test on the stored theme both read `b` |
| WorkingThemeState.HookReadsBackdropFilters | src/hooks/useWorkingThemeState.ts:363-389 | the hook's `getBackdropFilters`: the seven-filter test of the theme after `initializeTheme`, applied only to the design theme |
| WorkingThemeState.HookBackdropFiltersRoundTrip | src/hooks/useWorkingThemeState.ts:259-389 | the hook reads back `b` after the filters are set to `b`, provided `initializeTheme` keeps the seven filters of the design theme it is given |
| WorkingThemeState.ColourFiltersDecide | src/hooks/useWorkingThemeState.ts:371-389 | when the seven filters are all set or all cleared, the hook's seven-field test and the store's three-field test agree |
| WorkingThemeState.RefreshedTheme | src/hooks/useWorkingThemeState.ts:34-64 | only a `blob:` image is refreshed: replaced by the fresh URL `getImageUrl` answers, cleared when it answers `null` or an empty string; a failed lookup changes nothing; only `backgroundImage` can change |
| WorkingThemeState.RevalidatedTheme | src/hooks/useWorkingThemeState.ts:317-342 | a `blob:` image whose record is gone is cleared; in every other case the theme is unchanged |
| WorkingThemeState.WorkingThemeStore.constructor | src/hooks/useWorkingThemeState.ts:89-92 | the store starts with `DEFAULT_THEME` |
| WorkingThemeState.WorkingThemeStore.SetTheme | src/hooks/useWorkingThemeState.ts:93 | the theme is replaced by the given one |
| WorkingThemeState.WorkingThemeStore.SetThemeDisplayName | src/hooks/useWorkingThemeState.ts:94-97 | only `displayName` changes |
| WorkingThemeState.WorkingThemeStore.SetInherits | src/hooks/useWorkingThemeState.ts:98-99 | only `inherits` changes |
| WorkingThemeState.WorkingThemeStore.SetMostLike | src/hooks/useWorkingThemeState.ts:100-101 | only `mostLike` changes |
| WorkingThemeState.WorkingThemeStore.ClearWorkingTheme | src/hooks/useWorkingThemeState.ts:102-122 | the theme is `DEFAULT_THEME` whether or not the delete succeeds; an old `blob:` image URL leaves the live-URL set and no other URL does; with a working database exactly the `background-image` record is removed, otherwise the records are unchanged |
| WorkingThemeState.WorkingThemeStore.DeriveThemeName | src/hooks/useWorkingThemeState.ts:123-125 | the sanitised display name, hence a valid file name |
| WorkingThemeState.WorkingThemeStore.SetWorkingThemeFromCurrent | src/hooks/useWorkingThemeState.ts:126-133 | the theme becomes the working copy of the current theme with fallback `New Theme` |
| WorkingThemeState.WorkingThemeStore.SetWorkingThemeFromJson | src/hooks/useWorkingThemeState.ts:134-147 | unparseable JSON fails with `Invalid theme JSON format` and changes nothing; otherwise the theme becomes the working copy with fallback `Imported Theme` |
| WorkingThemeState.WorkingThemeStore.SetBackgroundImage | src/hooks/useWorkingThemeState.ts:166-254 | `null` clears image and background and deletes the stored image; a plain URL is set with a transparent background; a file or `data:` URL succeeds iff the database opens and the data converts, then is stored under `background-image` and shown through its blob URL, the fresh URL joining the live set and the old `blob:` URL revoked only when it differs; `null` revokes only the old `blob:` URL and deletes only the `background-image` record (nothing when the database cannot open); a plain URL leaves the records and the live URLs untouched; a failure changes neither theme, records nor live URLs |
| WorkingThemeState.WorkingThemeStore.GetBackgroundImage | src/hooks/useWorkingThemeState.ts:255-258 | the image URL, or `null` when it is unset or empty |
| WorkingThemeState.WorkingThemeStore.SetBackdropFilters | src/hooks/useWorkingThemeState.ts:259-304 | the theme gets the filters set or cleared, and `getBackdropFilters` then reads the flag back |
| WorkingThemeState.WorkingThemeStore.InitializedWorkingTheme | src/hooks/useWorkingThemeState.ts:363-369 | the design theme is passed through the initialiser, any other theme is returned as it is |
| WorkingThemeState.WorkingThemeStore.RefreshBlobUrls | src/hooks/useWorkingThemeState.ts:34-64 | a non-`blob:` image leaves the theme unchanged; a `blob:` image is refreshed from what `getImageUrl` answers; the fresh URL joins the live set and no URL is revoked |
| WorkingThemeState.WorkingThemeStore.RefreshBackgroundImageUrl | src/hooks/useWorkingThemeState.ts:317-342 | the theme is revalidated against what `getImage` answers |
| ImageStorage.SplitHeader | src/lib/imageStorage.ts:192 | the header is the text before the first comma; the payload is the text between the first and second comma, absent iff there is no comma |
| ImageStorage.UpToSemicolon | src/lib/imageStorage.ts:198 | the longest prefix without `;` |
| ImageStorage.MimeTypeOfHeader | src/lib/imageStorage.ts:197-199 | for a header starting `data:x` the type is the text after `data:` up to the first `;`; a header without `data:` gets `application/octet-stream` |
| ImageStorage.CharCodesToBytes | src/lib/imageStorage.ts:202-207 | one byte per character |
| ImageStorage.ManualDataUriToBlobMeaning | src/lib/imageStorage.ts:191-209 | the decoder fails iff the header or payload is missing or empty or the payload does not decode; otherwise byte `i` is char code `i` of the decoded text modulo 256 and the type is the header's |
| ImageStorage.DecodeDataUri | src/lib/imageStorage.ts:191-209 | the loop filling the byte array produces exactly the functional decoder's result |
| ImageStorage.ToBlobFormats | src/lib/imageStorage.ts:57-79 | a string that is neither `data:` nor `blob:` is refused with `Unsupported data format`; a File or Blob is stored as it is; a fetched `data:` URL is used as fetched |
| ImageStorage.ImageStorageService.constructor | src/lib/imageStorage.ts:11-16 | no database open, no live URLs, the records an earlier session left keyed by id |
| ImageStorage.ImageStorageService.Init | src/lib/imageStorage.ts:18-41 | opening succeeds iff the database can be opened, and otherwise fails with `Failed to open IndexedDB` |
| ImageStorage.ImageStorageService.EnsureDb | src/lib/imageStorage.ts:43-51 | the database is open after a success |
| ImageStorage.ImageStorageService.StoreImage | src/lib/imageStorage.ts:53-107 | the record is put under `id` iff the database opens and the data converts; other ids are untouched; on failure nothing is stored |
| ImageStorage.ImageStorageService.GetImage | src/lib/imageStorage.ts:109-123 | the record under `id`, or `null` when there is none; `Failed to open IndexedDB` when the database cannot open |
| ImageStorage.ImageStorageService.GetImageUrl | src/lib/imageStorage.ts:125-135 | `null` iff nothing is stored under `id`; otherwise the new URL, which is added to the active set, and nothing else is added |
| ImageStorage.ImageStorageService.DeleteImage | src/lib/imageStorage.ts:137-149 | when the database opens, the record under `id` is removed and the rest kept; otherwise `Failed to open IndexedDB` and nothing changes |
| ImageStorage.ImageStorageService.GetAllImages | src/lib/imageStorage.ts:151-166 | exactly the stored records, or `Failed to open IndexedDB` |
| ImageStorage.ImageStorageService.ClearAllImages | src/lib/imageStorage.ts:168-180 | the store is empty when the database opens, and unchanged with `Failed to open IndexedDB` otherwise |
| ImageStorage.ImageStorageService.RevokeImageUrl | src/lib/imageStorage.ts:219-224 | a `blob:` URL leaves the active set; any other string leaves it unchanged |
| ImageStorage.ImageStorageService.RevokeAllActiveUrls | src/lib/imageStorage.ts:227-232 | the active set is empty afterwards |
| ImageStorage.ImageStorageService.GetActiveUrlCount | src/lib/imageStorage.ts:235-237 | the number of live object URLs, zero exactly when none is live |
| UploadedUrls.FirstUrlOfType | src/components/nft/UploadMetadata.tsx:30-36 | the URL of the first record of that type, absent iff no record has it |
| UploadedUrls.AnyOfTypeIffFound | src/pages/PrepareNft.tsx:64 | `some` record has the type iff `find` finds one |
| UploadMetadata.OptionalAttributes | src/components/nft/UploadMetadata.tsx:79-118 | every emitted attribute comes from a source with a non-empty value |
| UploadMetadata.OptionalAttributesOrdered | src/components/nft/UploadMetadata.tsx:74-119 | sources in a fixed order give attributes in that order |
| UploadMetadata.OptionalAttributesPresence | src/components/nft/UploadMetadata.tsx:79-118 | a type is present iff its value is non-empty |
| UploadMetadata.CollectionSources | src/components/nft/UploadMetadata.tsx:74-119 | the five optional sources twitter, sponsor, website, icon and banner, in that order, each with its own value |
| UploadMetadata.CollectionAttributes | src/components/nft/UploadMetadata.tsx:74-119 | `description` followed by the truthy optional attributes; its order, values and presence are stated by the three lemmas below |
| UploadMetadata.CollectionAttributesOrdered | src/components/nft/UploadMetadata.tsx:74-119 | the first attribute is `description`, and the types appear in the fixed order description, twitter, sponsor, website, icon, banner |
| UploadMetadata.CollectionAttributesValues | src/components/nft/UploadMetadata.tsx:74-119 | every attribute carries its own type's value (the first uploaded icon and banner URLs for those types) |
| UploadMetadata.CollectionAttributesPresence | src/components/nft/UploadMetadata.tsx:79-118 | each optional type is present iff its value is non-empty |
| UploadMetadata.FinalTheme | src/components/nft/UploadMetadata.tsx:38-42 | the working theme renamed to the collection name, with the uploaded background when there is one; nothing else changes |
| UploadMetadata.GenerateMetadata | src/components/nft/UploadMetadata.tsx:23-128 | without a current theme, `No theme available` and no metadata; otherwise format `CHIP-0007`, the theme's display name, the description, the drawn collection id, the name `<display name> Theme`, and the final theme |
| UploadMetadata.NftAttributes | src/components/nft/UploadMetadata.tsx:48-70 | `Theme` then `Author`; a third `Background` attribute iff a background was uploaded, valued `Animated GIF` when the current theme's image lower-cased ends in `.gif` and `Image` otherwise |
| JsonEditor.ApplyOutcome | src/pages/JsonEditor.tsx:92-109 | applying passes iff validation passes and the JSON parses; a validation failure is reported as it is |
| JsonEditor.ValidateDisabled | src/pages/JsonEditor.tsx:198 | the Validate button is disabled for an example theme or blank text; see `ButtonGuards` |
| JsonEditor.ApplyDisabled | src/pages/JsonEditor.tsx:212-216 | the Apply button is disabled for an example theme, a running apply or blank text; see `ButtonGuards` |
| JsonEditor.ButtonGuards | src/pages/JsonEditor.tsx:195-216 | Apply is disabled whenever Validate is; an enabled button never reaches its handler's blank-text error; for an editable theme with no apply running, each is disabled exactly on blank text |
| JsonEditor.AsWrittenEditsNeverReachState | src/pages/JsonEditor.tsx:369-376 | with the handler wired as written, no user edit reaches the editor state, whatever `isExampleTheme` is |
| JsonEditor.EditsReachStateWhenEditable | src/pages/JsonEditor.tsx:369-376 | with the handler on the editable editor, edits reach the state iff the theme is not an example |
| JsonEditor.NextQuote | src/pages/JsonEditor.tsx:295 | the first `"` at or after a position, absent iff there is none |
| JsonEditor.Exec | src/pages/JsonEditor.tsx:295-298 | a match lies at or after `lastIndex`, between two quotes, with at least one character inside |
| JsonEditor.ExecQuoteFree | src/pages/JsonEditor.tsx:295 | the matched string holds no quote, and the match closes at the first quote after its opening one |
| JsonEditor.ExecIsLeftmost | src/pages/JsonEditor.tsx:295-298 | `exec` finds the leftmost match from `lastIndex`, and none exactly when no position matches |
| JsonEditor.FoundSound | src/pages/JsonEditor.tsx:299-332 | a colour taken from one match is a whole quoted string that passed the quick rejection and was accepted by the parser, at that string's offsets |
| JsonEditor.DocumentColorsSound | src/pages/JsonEditor.tsx:298-335 | every reported colour is such a string |
| JsonEditor.SkippedNeverReported | src/pages/JsonEditor.tsx:303-311 | no reported colour is longer than 50 characters or contains `/` or `\` |
| JsonEditor.ColorOfMatch | src/pages/JsonEditor.tsx:299-332 | the loop body yields exactly the colour of its match, if any |
| JsonEditor.ProvideDocumentColors | src/pages/JsonEditor.tsx:276-336 | the `while (exec)` loop reports exactly the colours of the text, in text order |
| JsonEditor.JsonEditorPage.constructor | src/pages/JsonEditor.tsx:33-52 | empty texts, validation `none`, no apply running, nothing loaded, no warning shown |
| JsonEditor.JsonEditorPage.HasUnsavedChanges | src/pages/JsonEditor.tsx:47-49 | the text differs from the last one loaded or applied; `HandleJsonEditorChange`, `LoadInitialTheme` and `HandleApplyJsonTheme` state how it moves |
| JsonEditor.JsonEditorPage.BlocksNavigation | src/pages/JsonEditor.tsx:54-57 | unsaved changes and a different path; `RequestNavigation` states that a move proceeds exactly when this is false |
| JsonEditor.JsonEditorPage.LoadInitialTheme | src/pages/JsonEditor.tsx:148-161 | loads once: the working theme for an editable theme, else the current theme; a load leaves no unsaved changes |
| JsonEditor.JsonEditorPage.HandleJsonEditorChange | src/pages/JsonEditor.tsx:140-144 | the text becomes the edit and validation resets to `none`; unsaved iff the edit differs from the saved text |
| JsonEditor.JsonEditorPage.UserEdit | src/pages/JsonEditor.tsx:369-374 | with the corrected wiring, an edit of an editable theme sets the text (`undefined` read as empty) and resets validation; an example theme is unchanged |
| JsonEditor.JsonEditorPage.HandleApplyJsonTheme | src/pages/JsonEditor.tsx:81-114 | blank text queues `Please enter theme JSON` and changes nothing else; otherwise the apply flag ends down; success replaces the working theme, marks the text saved and resets validation; failure queues `Invalid JSON format: <message>` and leaves theme and saved text alone |
| JsonEditor.JsonEditorPage.ImportJson | src/pages/JsonEditor.tsx:92-98 | validation then import; the working theme changes only on success |
| JsonEditor.JsonEditorPage.FinishApply | src/pages/JsonEditor.tsx:100-113 | the flag goes down; success marks the text saved, failure queues the error |
| JsonEditor.JsonEditorPage.HandleValidateJson | src/pages/JsonEditor.tsx:117-137 | blank text is `invalid` with an error queued; a passing validation is `valid`; a throwing one is `invalid` with its message queued |
| JsonEditor.JsonEditorPage.RequestNavigation | src/pages/JsonEditor.tsx:54-64 | a move proceeds iff there are no unsaved changes or the path stays the same; a held move opens the warning |
| JsonEditor.JsonEditorPage.ConfirmNavigation | src/pages/JsonEditor.tsx:66-71 | a held move proceeds and the warning closes |
| JsonEditor.JsonEditorPage.CancelNavigation | src/pages/JsonEditor.tsx:73-78 | a held move is dropped and the warning closes |
| PrepareNft.IsStepValid | src/pages/PrepareNft.tsx:50-71 | step 1 needs the four required fields non-blank, step 2 an icon chosen, step 3 an icon uploaded, step 4 nothing; `StepValidity` states steps 3, 4 and the range |
| PrepareNft.StepValidity | src/pages/PrepareNft.tsx:50-71 | step 3 is valid iff an icon was uploaded, step 4 always, any step outside 1..4 never |
| PrepareNft.NftWizard.constructor | src/pages/PrepareNft.tsx:17-20 | step 1, no icon |
| PrepareNft.NftWizard.PressNext | src/pages/PrepareNft.tsx:119-134 | not offered at step 4; disabled when the step is invalid; otherwise moves from k to k + 1; the step stays within 1..4 |
| PrepareNft.NftWizard.PressBack | src/pages/PrepareNft.tsx:102-112 | leaves the page from step 1, otherwise moves from k to k - 1 |
| PrepareNft.NftWizard.SetHasNftIcon | src/pages/PrepareNft.tsx:145 | the icon flag is what the images form reports |
| CollectionInfoForm.HandleInputChange | src/components/nft/CollectionInfoForm.tsx:29-34 | the edited field takes the value and every other field is kept |
| CollectionInfoForm.IsFormValid | src/components/nft/CollectionInfoForm.tsx:36-42 | description, author and sponsor are not blank; `ValidateFormAgreesWithIsFormValid` relates it to the toasts |
| CollectionInfoForm.ValidateForm | src/components/nft/CollectionInfoForm.tsx:44-58 | the first blank of description, author and sponsor is reported with its own message; passes iff none is blank |
| CollectionInfoForm.ValidateFormAgreesWithIsFormValid | src/components/nft/CollectionInfoForm.tsx:36-58 | the toast check passes exactly when the button's check holds |
| CollectionInfoForm.OptionalFieldsDoNotMatter | src/components/nft/CollectionInfoForm.tsx:29-42 | editing twitter, website or licence leaves validity as it was |
| CollectionInfoForm.HandleNext | src/components/nft/CollectionInfoForm.tsx:60-64 | `onNext` is called iff the form is valid; otherwise the first failure is toasted |
| CollectionInfoState.Set | src/hooks/useCollectionInfo.ts:48-51 | one field takes the value and the others are kept |
| CollectionInfoState.Merge | src/hooks/useCollectionInfo.ts:67-72 | a field takes its update when the update has one, and keeps its value otherwise |
| CollectionInfoState.MergeIdempotent | src/hooks/useCollectionInfo.ts:67-72 | the same update twice equals it once |
| CollectionInfoState.MergeCompose | src/hooks/useCollectionInfo.ts:67-72 | two updates in a row equal one update in which the later values win |
| CollectionInfoState.MergeEmpty | src/hooks/useCollectionInfo.ts:67-72 | an empty update changes nothing |
| CollectionInfoState.CollectionInfoStore.constructor | src/hooks/useCollectionInfo.ts:15-30 | every field empty, first mount pending, nothing saved |
| CollectionInfoState.CollectionInfoStore.LoadSaved | src/hooks/useCollectionInfo.ts:33-43 | saved info that parses replaces the state; missing, empty or unparseable info leaves it |
| CollectionInfoState.CollectionInfoStore.AutoFillName | src/hooks/useCollectionInfo.ts:46-53 | an empty collection name takes the current theme's name; a non-empty one is never overwritten |
| CollectionInfoState.CollectionInfoStore.SaveEffect | src/hooks/useCollectionInfo.ts:56-65 | the first run only clears the initial-mount flag; later runs save the current info |
| CollectionInfoState.CollectionInfoStore.UpdateCollectionInfo | src/hooks/useCollectionInfo.ts:67-72 | the state is merged with the update |
| CollectionInfoState.CollectionInfoStore.SetCollectionInfo | src/hooks/useCollectionInfo.ts:74-78 | the state is replaced |
| Pagination.CeilDiv | src/components/Pagination.tsx:36 | the fewest pages of `pageSize` that hold `total` |
| Pagination.TotalPages | src/components/Pagination.tsx:35-37 | undefined iff `total` is missing or 0, otherwise at least 1 |
| Pagination.TotalPagesHoldTotal | src/components/Pagination.tsx:35-37 | for a positive total, `totalPages · pageSize ≥ total` and one page fewer would not hold it |
| Pagination.IsFirstPage | src/components/Pagination.tsx:38 | page 1; `PrevTarget` does nothing exactly here |
| Pagination.IsLastPage | src/components/Pagination.tsx:39-41 | with a known page count, being on it, otherwise nothing more to load or a load under way; `NextTarget` does nothing exactly here |
| Pagination.PrevTarget | src/components/Pagination.tsx:53-56 | nothing on page 1; otherwise a page ≥ 1, the previous page when `page > 1` |
| Pagination.NextTarget | src/components/Pagination.tsx:105-108 | nothing iff on the last page; never beyond `totalPages` or `page + 1` |
| Pagination.NextIsFollowingPage | src/components/Pagination.tsx:105-108 | inside a known page count, next is exactly `page + 1` |
| Pagination.NextWithoutTotal | src/components/Pagination.tsx:39-41 | without a page count, next is `page + 1` unless nothing more can load or loading is under way |
| Pagination.PageOptions | src/components/Pagination.tsx:81-89 | `totalPages` options, option `i` being page `i + 1` |
| Pagination.PageOptionsAreThePages | src/components/Pagination.tsx:81-89 | the options are exactly 1..`totalPages`, ascending |
| Pagination.PageSelectorDisabled | src/components/Pagination.tsx:69 | the page selector is disabled for a single page; see `SinglePageIsFrozen` |
| Pagination.SinglePageIsFrozen | src/components/Pagination.tsx:35-69 | a total that fits one page gives one page, a disabled selector and no previous or next move |
| ErrorContext.Enqueue | src/contexts/ErrorContext.tsx:35-37 | the error goes at the end; the queue grows by one and keeps its order |
| ErrorContext.Dequeue | src/contexts/ErrorContext.tsx:52 | the head is removed; an empty queue stays empty |
| ErrorContext.Head | src/contexts/ErrorContext.tsx:49-54 | present iff the queue is non-empty, and then the oldest error |
| ErrorContext.StepIsFifo | src/contexts/ErrorContext.tsx:35-54 | for one event, what is closed followed by what still waits equals the old queue followed by what is reported |
| ErrorContext.RunIsFifo | src/contexts/ErrorContext.tsx:32-57 | over any run of reports and closes, the errors closed followed by those waiting are the errors waiting before followed by those reported: first in, first out |
| ErrorContext.KindLabel | src/contexts/ErrorContext.tsx:65-82 | a label exactly for `walletconnect`, `upload` and `dexie`, namely `WalletConnect`, `Upload` and `Dexie` |
| ErrorContext.DialogTitle | src/contexts/ErrorContext.tsx:88 | `<label> Error` when the kind has a label, else `Error` |
| ErrorContext.ErrorProvider.constructor | src/contexts/ErrorContext.tsx:33 | the queue starts empty |
| ErrorContext.ErrorProvider.AddError | src/contexts/ErrorContext.tsx:35-37 | the queue is the old one with the error appended |
| ErrorContext.ErrorProvider.Dismiss | src/contexts/ErrorContext.tsx:52 | the queue loses its head |
| ErrorContext.ErrorProvider.Shown | src/contexts/ErrorContext.tsx:49-54 | the dialog shows the head of the queue, and nothing when it is empty |
| ErrorContext.ErrorProvider.Apply | src/contexts/ErrorContext.tsx:35-54 | one event moves the queue exactly as `Step` says and returns the error it closed |
| ThemeSelector.NameLeTotal | src/components/ThemeSelector.tsx:33 | the display-name order is total |
| ThemeSelector.NameLeTransitive | src/components/ThemeSelector.tsx:33 | the display-name order is transitive |
| ThemeSelector.NameLeAntisymmetric | src/components/ThemeSelector.tsx:33 | the display-name order is antisymmetric |
| ThemeSelector.InsertByName | src/components/ThemeSelector.tsx:33 | inserting adds exactly the one theme |
| ThemeSelector.InsertByNameSorted | src/components/ThemeSelector.tsx:33 | inserting into a sorted list keeps it sorted |
| ThemeSelector.SortByName | src/components/ThemeSelector.tsx:33 | the sort is a permutation |
| ThemeSelector.SortByNameSorted | src/components/ThemeSelector.tsx:33 | the sort's result is ordered by display name |
| ThemeSelector.VisibleThemes | src/components/ThemeSelector.tsx:31-32 | exactly the available themes without the `hidden` tag |
| ThemeSelector.VisibleThemesCounts | src/components/ThemeSelector.tsx:31-32 | each non-hidden theme is kept as often as it is available, and no hidden one is kept |
| ThemeSelector.VisibleThemesIsFilter | src/components/ThemeSelector.tsx:31-32 | the filter keeps order: one theme is kept iff it is not hidden, and the visible themes of a concatenation are those of each part, in turn |
| ThemeSelector.ExampleThemes | src/components/ThemeSelector.tsx:31-33 | the visible themes sorted by display name; see `ExampleThemesAreSortedVisible` |
| ThemeSelector.ExampleThemesAreSortedVisible | src/components/ThemeSelector.tsx:31-33 | the example list is a permutation of the visible themes (each non-hidden theme as often as it is available, no hidden one) and is ordered by display name |
| ThemeSelector.CardsFor | src/components/ThemeSelector.tsx:42-50 | one card per theme, in order, selected iff its name is the current theme's |
| ThemeSelector.ThemeSelectorView | src/components/ThemeSelector.tsx:10-55 | loading first, then a non-empty error; after those, `No theme available` iff there is no current theme, otherwise the example cards for it |
| ThemeSelector.FindByName | src/components/ThemeSelector.tsx:79-84 | the first available theme with the name, absent iff none has it |
| ThemeSelector.ThirdTheme | src/components/ThemeSelector.tsx:86-99 | the last used theme when it is set and available, otherwise `colorful` |
| ThemeSelector.Present | src/components/ThemeSelector.tsx:101-103 | exactly the picks that are present |
| ThemeSelector.PresentIsFilter | src/components/ThemeSelector.tsx:101-103 | the filter keeps order: one pick gives its theme iff present, and the themes of a concatenation are those of each part, in turn |
| ThemeSelector.QuickPickThemes | src/components/ThemeSelector.tsx:78-103 | the present picks among light, dark and the third theme; see `QuickPickShape` |
| ThemeSelector.QuickPickShape | src/components/ThemeSelector.tsx:78-103 | one theme per present pick and no other, all available, in the order light, dark, third |
| ThemeSelector.ThemeSelectorSimpleView | src/components/ThemeSelector.tsx:67-120 | loading iff loading or no current theme, otherwise the quick-pick cards |
| Themes.HasTag | src/lib/themes.ts:5-7 | the theme's tag list includes the tag; see `HasTagMeaning` |
| Themes.HasTagMeaning | src/lib/themes.ts:5-7 | a theme has a tag iff it has a tag list naming it at some position; a theme without a list has no tag |
| Themes.ValidateThemeJson | src/lib/themes.ts:9-21 | the library's error is passed on; a theme it accepts fails iff its button style is set and not one of the five, with `Invalid button style: <style>` |
| Themes.WhitelistedStylesPass | src/lib/themes.ts:11-20 | an accepted theme with no button style or one of the five passes |
| Themes.AfterLastSlash | src/lib/themes.ts:35 | the suffix after the last `/`, with no `/` in it |
| Themes.ThemeDirName | src/lib/themes.ts:35-38 | a capture is a non-empty name without `/`, and the path ends with `../themes/<name>/theme.json` |
| Themes.AfterLastSlashOfName | src/lib/themes.ts:35 | a directory followed by a slash-free name yields that name |
| Themes.GlobPathsMatch | src/lib/themes.ts:27-38 | every path the glob yields matches the pattern and captures its directory name |
| Themes.BundledThemes | src/lib/themes.ts:32-41 | exactly the themes whose path matches |
| Themes.BundledThemesIsFilter | src/lib/themes.ts:32-41 | the filter keeps module order: one module gives its theme iff its path matches, and the themes of a concatenation are those of each part, in turn |
| Themes.BundledThemesKeepsGlobbed | src/lib/themes.ts:27-41 | with only globbed paths, every bundled theme is kept, in order |
| Themes.DiscoverThemes | src/lib/themes.ts:24-56 | the bundled themes, followed by the persisted working theme when there is one; `[]` when parsing throws |
| Themes.ResolveThemeImage | src/lib/themes.ts:58-91 | the sentinel gives the stored background, or `''` when it is absent or the lookup fails; another path gives its bundled module URL, or the path itself |
| IpfsManager.NewManager | src/lib/ipfs/ipfsManager.ts:10-25 | succeeds iff the provider is `pinata` or `filebase`, keeping the name and config; otherwise throws `Unsupported IPFS provider: <name>` |
| IpfsManager.GetProvider | src/lib/ipfs/ipfsManager.ts:49-51 | one of the two provider names |
| IpfsManager.GetProviderRoundTrip | src/lib/ipfs/ipfsManager.ts:49-51 | `getProvider` returns the name the manager was built with |
| IpfsManager.ProviderNameInjective | src/lib/ipfs/ipfsManager.ts:16-24 | distinct providers have distinct names |
| IpfsManager.UploadFile | src/lib/ipfs/ipfsManager.ts:27-36 | without an API key, failure `API key is required`; with one, the service's answer |
| IpfsManager.UploadFileWithoutKeyIgnoresService | src/lib/ipfs/ipfsManager.ts:27-33 | without a key the service is never consulted |
| IpfsManager.UploadFiles | src/lib/ipfs/ipfsManager.ts:38-47 | without an API key, one such failure per file; with one, the service's answer |
| IpfsManager.UploadFilesAgreesWithUploadFile | src/lib/ipfs/ipfsManager.ts:27-47 | without a key the batch answers each file as the single upload would |
| IpfsManager.GetGatewayUrl | src/lib/ipfs/ipfsManager.ts:53-62 | the configured gateway when set and non-empty, otherwise the provider's public gateway; never empty |
| IpfsManager.DefaultGatewayIsHttpsIpfsPath | src/lib/ipfs/ipfsManager.ts:53-62 | the default gateway starts with `https://` and ends with `/ipfs/` |
| IpfsManager.CreateFileFromDataUrl | src/lib/ipfs/ipfsManager.ts:65-71 | the given name and type, with the data URL as content |
| IpfsManager.CreateFileFromFile | src/lib/ipfs/ipfsManager.ts:74-80 | the file's own name and type, with the file as content |
| IpfsManager.CreateFileFromBlob | src/lib/ipfs/ipfsManager.ts:83-89 | the given name and type, with the blob as content |
| IpfsManager.FileAndBlobHelpersAgree | src/lib/ipfs/ipfsManager.ts:74-89 | a file and its blob, under the file's name and type, give the same name and type but different content kinds |
| NavigationState.WithReturnValue | src/state.ts:15-18 | the page holds the new value, keys grow by at most that page, and other pages keep theirs |
| NavigationState.LastWriteWins | src/state.ts:17 | setting a page twice keeps only the second value |
| NavigationState.DistinctPagesCommute | src/state.ts:17 | updates to different pages commute |
| NavigationState.ApplyAllKeepsLast | src/state.ts:13-19 | after any run of updates, each page holds the last value set for it, and pages never addressed keep what they had |
| NavigationState.NavigationStore.constructor | src/state.ts:14 | no return values |
| NavigationState.NavigationStore.SetReturnValue | src/state.ts:15-18 | the map is updated at the page |
| WebFallbacks.GetPlatform | src/lib/web-fallbacks.ts:12-24 | without `window`, `web` |
| WebFallbacks.GetPlatformIsFirstMatch | src/lib/web-fallbacks.ts:15-21 | the lower-cased agent classifies as `p` iff `p`'s pattern matches and no earlier pattern does |
| WebFallbacks.GetPlatformWebIffNoMatch | src/lib/web-fallbacks.ts:17-23 | `web` iff no pattern matches |
| WebFallbacks.AndroidBeforeLinux | src/lib/web-fallbacks.ts:18-21 | an agent naming both Android and Linux (and no iOS device) is `android` |
| WebFallbacks.IpadBeforeMac | src/lib/web-fallbacks.ts:17-19 | an agent naming both iPad and Mac is `ios` |

## Left out

- `setThemeColor`, `getThemeColor`, `hslToRgb`, `rgbToHsl` and the colour presentations of the editor: floating-point colour arithmetic.
- JsonEditor.JsonEditorPage.HandleValidateJson: the caught error is taken to print as `Error: <message>`, as the library's `Error` does; a `SyntaxError` or `TypeError` thrown inside `validateTheme` would print its own name instead, and the model does not distinguish error classes.
- Utils.AreColorsEqual: channels are real numbers; JavaScript's `NaN` and infinities are not modelled, so reflexivity holds only for finite channels.
- Text: `toLowerCase` is ASCII-only and string lengths count code points, not UTF-16 units; no Unicode case mapping.
- ThemeSelector.SortByName: `localeCompare` is replaced by code-point lexicographic order, since locale collation is foreign.
- ImageStorage: IndexedDB and its asynchrony are a map and a `canOpenDatabase` flag. Only the failure to open is modelled; a failed put, get or delete transaction is not.
- ImageStorage.ImageStorageService.GetAllImages: returns a set, because the key order of `getAll` is not modelled.
- ImageStorage: `fetch` for `data:` and `blob:` URLs, `atob` and `URL.createObjectURL`/`revokeObjectURL` are parameters. The URL a new object URL gets is supplied by the caller.
- WorkingThemeState.WorkingThemeStore.SetBackgroundImage: `getImageUrl` right after a successful store is taken to succeed, because the store answers from the record just put.
- JsonEditor: Monaco's line/column positions are character offsets into the text (`getPositionAt` is foreign).
- JsonEditor: the one-time Monaco setup (schema, mode configuration, the `window` registration flag) and the rendering.
- JsonEditor: `isExampleTheme` is an input of each operation. The hook meant to supply it does not return it, so in the application it is always `undefined`.
- Pagination.TotalPages: requires `pageSize > 0`. The component divides by the page size, and its callers pass one of the positive options.
- CollectionInfoState: the storage key `NFT_COLLECTION_INFO` is not defined in the constants file. The model stores under an unnamed key.
- CollectionInfoState: `JSON.parse` of the saved info is a parameter, and the storage write is the `saved` field.
- CollectionInfoForm: the wizard renders the form without `onNext` (src/pages/PrepareNft.tsx:140-143). The model states only when the form calls `onNext`, not what an absent callback does.
- ThemeModel: absent and empty sub-objects (`sidebar`, `tables`, `colors`) are not distinguished, and neither are an `undefined` and an empty `displayName`.
- UploadMetadata: `JSON.stringify` of the metadata and `uploadToPinata` (Pinata SDK over HTTP).
- IpfsManager: the upload options are folded into the service parameter. The Pinata and Filebase HTTP services are outside the model.
- IpfsManager.GetGatewayUrl: the source's `default` branch returning `''` is left out, because the constructor admits only the two providers and the branch cannot run.
- WebFallbacks: the clipboard and safe-area helpers are browser I/O. A missing `window` is modelled as `None`.
- Persistence: the zustand `persist` rehydration wiring, clipboard, toasts and `crypto.randomUUID` are inputs or left out.

## Findings

| source | as written | input that shows it | evidently intended | confidence | as-written member | corrected member |
|---|---|---|---|---|---|---|
| src/pages/JsonEditor.tsx:369-376 | `onChange` is attached only when `isExampleTheme` holds, while `readOnly` is `isExampleTheme`. When the editor accepts input it has no handler, and when it has a handler it is read-only. | A working theme that is not an example (`isExampleTheme` false or `undefined`) and any keystroke: the text shows in Monaco but `jsonEditorValue` keeps its old value, so Apply and Validate act on stale text and unsaved changes are never detected. | The handler is attached to the editable editor, so that edits of a non-example theme reach `jsonEditorValue`. | not executed | JsonEditor.AsWrittenEditsNeverReachState | JsonEditor.EditsReachStateWhenEditable |
