/** src/hooks/useCollectionInfo.ts: the NFT collection details being edited,
    merged field by field and saved whenever they change. */
module CollectionInfoState {

  import opened Wrappers
  import opened ThemeModel

  datatype CollectionInfo = CollectionInfo(
    description: string,
    author: string,
    sponsor: string,
    twitterHandle: string,
    website: string,
    licenseUrl: string,
    collectionName: string)

  const DefaultCollectionInfo: CollectionInfo := CollectionInfo("", "", "", "", "", "", "")

  /** The record's keys, so that a `Partial<CollectionInfo>` is a map over them. */
  datatype InfoField = Description | Author | Sponsor | TwitterHandle | Website | LicenseUrl | CollectionName

  function Get(info: CollectionInfo, f: InfoField): string {
    match f
    case Description => info.description
    case Author => info.author
    case Sponsor => info.sponsor
    case TwitterHandle => info.twitterHandle
    case Website => info.website
    case LicenseUrl => info.licenseUrl
    case CollectionName => info.collectionName
  }

  /** `{ ...info, [f]: v }`. */
  function Set(info: CollectionInfo, f: InfoField, v: string): (r: CollectionInfo)
    ensures Get(r, f) == v
    ensures forall g :: g != f ==> Get(r, g) == Get(info, g)
  {
    match f
    case Description => info.(description := v)
    case Author => info.(author := v)
    case Sponsor => info.(sponsor := v)
    case TwitterHandle => info.(twitterHandle := v)
    case Website => info.(website := v)
    case LicenseUrl => info.(licenseUrl := v)
    case CollectionName => info.(collectionName := v)
  }

  /** Two records with the same value in every field are the same record. */
  lemma FieldsDetermine(a: CollectionInfo, b: CollectionInfo)
    requires forall f :: Get(a, f) == Get(b, f)
    ensures a == b
  {
    assert Get(a, Description) == Get(b, Description) && Get(a, Author) == Get(b, Author);
    assert Get(a, Sponsor) == Get(b, Sponsor) && Get(a, TwitterHandle) == Get(b, TwitterHandle);
    assert Get(a, Website) == Get(b, Website) && Get(a, LicenseUrl) == Get(b, LicenseUrl);
    assert Get(a, CollectionName) == Get(b, CollectionName);
  }

  function SetAll(info: CollectionInfo, updates: map<InfoField, string>, fields: seq<InfoField>): (r: CollectionInfo)
    ensures forall g :: Get(r, g) == if g in fields && g in updates then updates[g] else Get(info, g)
  {
    if fields == [] then info
    else
      var rest := SetAll(info, updates, fields[1..]);
      assert forall g :: g in fields <==> g == fields[0] || g in fields[1..];
      if fields[0] in updates then Set(rest, fields[0], updates[fields[0]]) else rest
  }

  const AllFields: seq<InfoField> := [Description, Author, Sponsor, TwitterHandle, Website, LicenseUrl, CollectionName]

  lemma EveryFieldListed()
    ensures forall f :: f in AllFields
  {
    forall f ensures f in AllFields {
      match f
      case Description => assert AllFields[0] == f;
      case Author => assert AllFields[1] == f;
      case Sponsor => assert AllFields[2] == f;
      case TwitterHandle => assert AllFields[3] == f;
      case Website => assert AllFields[4] == f;
      case LicenseUrl => assert AllFields[5] == f;
      case CollectionName => assert AllFields[6] == f;
    }
  }

  /** `{ ...prev, ...updates }`: a field takes its update when it has one. */
  function Merge(info: CollectionInfo, updates: map<InfoField, string>): (r: CollectionInfo)
    ensures forall f :: Get(r, f) == if f in updates then updates[f] else Get(info, f)
  {
    EveryFieldListed();
    SetAll(info, updates, AllFields)
  }

  /** Applying the same partial update twice is applying it once. */
  lemma MergeIdempotent(info: CollectionInfo, updates: map<InfoField, string>)
    ensures Merge(Merge(info, updates), updates) == Merge(info, updates)
  {
    FieldsDetermine(Merge(Merge(info, updates), updates), Merge(info, updates));
  }

  /** Two updates in a row are one update with the later values winning. */
  lemma MergeCompose(info: CollectionInfo, first: map<InfoField, string>, second: map<InfoField, string>)
    ensures Merge(Merge(info, first), second) == Merge(info, first + second)
  {
    FieldsDetermine(Merge(Merge(info, first), second), Merge(info, first + second));
  }

  /** An empty update changes nothing. */
  lemma MergeEmpty(info: CollectionInfo)
    ensures Merge(info, map[]) == info
  {
    FieldsDetermine(Merge(info, map[]), info);
  }

  class CollectionInfoStore {
    var collectionInfo: CollectionInfo
    /** The `isInitialMount` ref. */
    var isInitialMount: bool
    /** What the last save wrote to local storage, if any. */
    var saved: Option<CollectionInfo>

    constructor ()
      ensures collectionInfo == DefaultCollectionInfo && isInitialMount && saved == None
    {
      collectionInfo := DefaultCollectionInfo;
      isInitialMount := true;
      saved := None;
    }

    /** The mount effect; `parse` stands for `JSON.parse` (`None` when it throws). */
    method LoadSaved(savedInfo: Option<string>, parse: string -> Option<CollectionInfo>)
      modifies this`collectionInfo
      ensures savedInfo.Some? && savedInfo.value != "" && parse(savedInfo.value).Some? ==>
        collectionInfo == parse(savedInfo.value).value
      ensures !(savedInfo.Some? && savedInfo.value != "" && parse(savedInfo.value).Some?) ==>
        collectionInfo == old(collectionInfo)
    {
      if savedInfo.Some? && savedInfo.value != "" {
        var parsed := parse(savedInfo.value);
        if parsed.Some? {
          collectionInfo := parsed.value;
        }
      }
    }

    /** The theme effect: an empty collection name takes the current theme's name. */
    method AutoFillName(currentTheme: Option<Theme>)
      modifies this`collectionInfo
      ensures currentTheme.Some? && old(collectionInfo.collectionName) == "" ==>
        collectionInfo == old(collectionInfo).(collectionName := currentTheme.value.name)
      ensures !(currentTheme.Some? && old(collectionInfo.collectionName) == "") ==>
        collectionInfo == old(collectionInfo)
    {
      if currentTheme.Some? && collectionInfo.collectionName == "" {
        collectionInfo := Set(collectionInfo, CollectionName, currentTheme.value.name);
      }
    }

    /** The save effect: skipped once, on the initial mount, and run on every change after. */
    method SaveEffect()
      modifies this`isInitialMount, this`saved
      ensures !isInitialMount
      ensures old(isInitialMount) ==> saved == old(saved)
      ensures !old(isInitialMount) ==> saved == Some(collectionInfo)
    {
      if isInitialMount {
        isInitialMount := false;
        return;
      }
      saved := Some(collectionInfo);
    }

    method UpdateCollectionInfo(updates: map<InfoField, string>)
      modifies this`collectionInfo
      ensures collectionInfo == Merge(old(collectionInfo), updates)
    {
      collectionInfo := Merge(collectionInfo, updates);
    }

    method SetCollectionInfo(info: CollectionInfo)
      modifies this`collectionInfo
      ensures collectionInfo == info
    {
      collectionInfo := info;
    }
  }
}
